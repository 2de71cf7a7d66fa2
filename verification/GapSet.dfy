/** The proving crate's exclusion set: field keys in a sorted vector with binary search, its
    own absence check, and its agreement with the byte-level set. */
module GapSets {
  import opened Wrappers
  import opened Bytes
  import opened Crypto
  import opened Merkle
  import opened Ascending
  import SparseTree
  import Exclusion

  datatype AbsenceWitness = AbsenceWitness(low: F, high: F, path: SparseTree.Path)

  predicate PathType(c: Scheme, p: SparseTree.Path) {
    |p.siblings| == |p.bits| == c.depth
  }

  /** Low 253 bits of a canonical element. */
  function Truncate(key: F): nat {
    key % SPAN253
  }

  function GapLeaf(c: Scheme, low: F, high: F): F {
    Poseidon(c, [GAP, low, high])
  }

  /** The clause-for-clause absence check: no range check on the bounds here, since the caller's
      circuit imposes one. */
  predicate VerifiesAbsent(c: Scheme, key: F, w: AbsenceWitness, root: F)
    requires PathType(c, w.path)
  {
    && w.low < Truncate(key) < w.high
    && SparseTree.PathRoot(c, GapLeaf(c, w.low, w.high), w.path.siblings, w.path.bits) == root
  }

  /** The members of a sorted vector. */
  function Members(keys: seq<nat>): set<nat> {
    set k | k in keys
  }

  /** The gap whose bounds contain `t`, searching from `i`; the first gap when none does. */
  function FirstGap(bounds: seq<nat>, t: nat, i: nat): (g: nat)
    requires |bounds| >= 2 && i < |bounds|
    ensures g < |bounds| - 1
    decreases |bounds| - i
  {
    if i == |bounds| - 1 then 0
    else if bounds[i] <= t < bounds[i + 1] then i
    else FirstGap(bounds, t, i + 1)
  }

  lemma {:induction false} FirstGapIs(bounds: seq<nat>, t: nat, i: nat, g: nat)
    requires i <= g < |bounds| - 1
    requires bounds[g] <= t < bounds[g + 1]
    requires forall j :: i <= j < g ==> !(bounds[j] <= t < bounds[j + 1])
    ensures FirstGap(bounds, t, i) == g
    decreases g - i
  {
    if i < g {
      FirstGapIs(bounds, t, i + 1, g);
    }
  }

  lemma {:induction false} NoGap(bounds: seq<nat>, t: nat, i: nat)
    requires |bounds| >= 2 && i < |bounds|
    requires forall j :: 0 <= j < |bounds| ==> bounds[j] <= t
    ensures FirstGap(bounds, t, i) == 0
    decreases |bounds| - i
  {
    if i < |bounds| - 1 {
      NoGap(bounds, t, i + 1);
    }
  }

  /** Both sets pick the same gap for every truncated key below the upper sentinel. */
  lemma SameGapPicked(keys: set<nat>, t: nat)
    requires Exclusion.InDomain(keys) && t < Exclusion.UPPER
    ensures FirstGap(Exclusion.Bounds(keys), t, 0) == Exclusion.GapIndex(keys, t)
  {
    var bounds, g := Exclusion.Bounds(keys), Exclusion.GapIndex(keys, t);
    Exclusion.PickedGapContains(keys, t);
    forall j | 0 <= j < g
      ensures !(bounds[j] <= t < bounds[j + 1])
    {
      Exclusion.BoundsAscend(keys, j + 1, g);
    }
    FirstGapIs(bounds, t, 0, g);
  }

  /** At the upper sentinel both fall back to a gap that cannot contain it. */
  lemma SentinelNeverContained(keys: set<nat>)
    requires Exclusion.InDomain(keys)
    ensures var g := FirstGap(Exclusion.Bounds(keys), Exclusion.UPPER, 0);
            g == 0 && !(Exclusion.UPPER < Exclusion.Bounds(keys)[g + 1])
    ensures !(Exclusion.UPPER < Exclusion.Bounds(keys)[Exclusion.GapIndex(keys, Exclusion.UPPER) + 1])
  {
    var bounds := Exclusion.Bounds(keys);
    forall j | 0 <= j < |bounds|
      ensures bounds[j] <= Exclusion.UPPER
    {
      Exclusion.BoundsAscend(keys, j, |bounds| - 1);
    }
    NoGap(bounds, Exclusion.UPPER, 0);
  }

  /** Inserting between smaller and larger keys keeps the order and adds one member. */
  lemma InsertedMembers(keys: seq<nat>, at: nat, t: nat)
    requires StrictlyAscending(keys) && at <= |keys|
    requires forall i :: 0 <= i < at ==> keys[i] < t
    requires forall i :: at <= i < |keys| ==> keys[i] > t
    ensures StrictlyAscending(keys[..at] + [t] + keys[at..])
    ensures Members(keys[..at] + [t] + keys[at..]) == Members(keys) + {t}
    ensures t !in Members(keys)
  {
    var longer := keys[..at] + [t] + keys[at..];
    assert longer[at] == t;
    forall k | k in keys ensures k in longer {
      var i :| 0 <= i < |keys| && keys[i] == k;
      assert longer[if i < at then i else i + 1] == k;
    }
  }

  lemma NextGapLeaf(c: Scheme, keys: set<nat>, i: nat)
    requires i <= |keys|
    ensures Exclusion.GapLeaves(c, keys)[..i + 1]
         == Exclusion.GapLeaves(c, keys)[..i] + [GapLeaf(c, Exclusion.Bounds(keys)[i], Exclusion.Bounds(keys)[i + 1])]
  {
    var all := Exclusion.GapLeaves(c, keys);
    assert all[i] == Poseidon(c, Exclusion.GapPreimage(keys, i));
    assert all[..i + 1] == all[..i] + [all[i]];
  }

  class GapSet {
    var keys: seq<nat>

    ghost predicate Valid()
      reads this
    {
      StrictlyAscending(keys) && Exclusion.InDomain(Members(keys))
    }

    constructor ()
      ensures Valid() && keys == []
    {
      keys := [];
    }

    /** The insertion point of `t`, and whether it is already there. */
    method Search(t: nat) returns (found: bool, at: nat)
      requires Valid()
      ensures at <= |keys|
      ensures forall i :: 0 <= i < at ==> keys[i] < t
      ensures found ==> at < |keys| && keys[at] == t
      ensures !found ==> forall i :: at <= i < |keys| ==> keys[i] > t
    {
      var low, high := 0, |keys|;
      while low < high
        invariant 0 <= low <= high <= |keys|
        invariant forall i :: 0 <= i < low ==> keys[i] < t
        invariant forall i :: high <= i < |keys| ==> keys[i] > t
      {
        var mid := low + (high - low) / 2;
        if keys[mid] == t {
          return true, mid;
        } else if keys[mid] < t {
          low := mid + 1;
        } else {
          high := mid;
        }
      }
      return false, low;
    }

    /** Inserts a key's truncation where the search says; a repeat changes nothing. */
    method Insert(key: F)
      requires Valid()
      modifies this
      ensures Valid()
      ensures Members(keys) == old(Members(keys)) + {Truncate(key)}
      ensures Truncate(key) in old(Members(keys)) ==> keys == old(keys)
    {
      var t := Truncate(key);
      var found, at := Search(t);
      if !found {
        InsertedMembers(keys, at, t);
        keys := keys[..at] + [t] + keys[at..];
      } else {
        assert keys[at] in keys;
      }
    }

    /** The gap bounds, sentinels included: the same list the byte-level set has. */
    method GapBounds() returns (bounds: seq<nat>)
      requires Valid()
      ensures bounds == Exclusion.Bounds(Members(keys))
    {
      bounds := [0] + keys + [Exclusion.UPPER];
      AscendingUnique(keys, Sorted(Members(keys)));
    }

    /** The gap tree, rebuilt from the current keys. */
    method BuildTree(c: Scheme, bounds: seq<nat>) returns (tree: SparseTree.Tree)
      requires Valid() && bounds == Exclusion.Bounds(Members(keys))
      requires |Members(keys)| < Pow2(c.depth)
      ensures fresh(tree) && tree.Valid() && tree.c == c
      ensures tree.Leaves() == Exclusion.GapLeaves(c, Members(keys))
    {
      tree := new SparseTree.Tree(c);
      hide Exclusion.GapLeaves, Exclusion.Bounds, GapLeaf, Poseidon;
      ghost var all := Exclusion.GapLeaves(c, Members(keys));
      for i := 0 to |bounds| - 1
        invariant fresh(tree) && tree.Valid() && tree.c == c
        invariant tree.Leaves() == all[..i]
      {
        NextGapLeaf(c, Members(keys), i);
        var position := tree.Append(GapLeaf(c, bounds[i], bounds[i + 1]));
      }
      assert all[..|all|] == all;
    }

    /** The current root: the field value of the byte-level set's root. */
    method Root(c: Scheme) returns (root: F)
      requires Valid() && Primitives(c) && |Members(keys)| < Pow2(c.depth)
      ensures Decode(Exclusion.SetRoot(c, Members(keys))) == Some(root)
    {
      var bounds := GapBounds();
      var tree := BuildTree(c, bounds);
      root := tree.Root();
      Exclusion.RootInField(c, Exclusion.GapLeaves(c, Members(keys)));
      ValueOfToBytes(root);
    }

    /** The absence witness of a key: for every truncation below the upper sentinel the same
        gap, bounds and path the byte-level set serves; at the sentinel, one that fails. */
    method AbsenceFor(c: Scheme, key: F) returns (w: AbsenceWitness)
      requires Valid() && |Members(keys)| < Pow2(c.depth)
      ensures PathType(c, w.path)
      ensures var bounds := Exclusion.Bounds(Members(keys));
              var i := Exclusion.GapIndex(Members(keys), Truncate(key));
              Truncate(key) < Exclusion.UPPER ==>
                && w.low == bounds[i] && w.high == bounds[i + 1]
                && w.path.bits == SparseTree.Bits(i, c.depth)
                && w.path.siblings == PathOf(c, Exclusion.GapLeaves(c, Members(keys)), 0, i, c.depth)
      ensures Truncate(key) == Exclusion.UPPER ==> forall root :: !VerifiesAbsent(c, key, w, root)
    {
      hide Exclusion.GapLeaves, Exclusion.GapIndex, Exclusion.Bounds, FirstGap, SparseTree.Bits, PathOf, GapLeaf, Truncate;
      var t := Truncate(key);
      var bounds := GapBounds();
      var position := FirstGap(bounds, t, 0);
      var tree := BuildTree(c, bounds);
      var path := tree.WitnessAt(position);
      w := AbsenceWitness(bounds[position], bounds[position + 1], path.value);
      if t < Exclusion.UPPER {
        SameGapPicked(Members(keys), t);
      } else {
        SentinelNeverContained(Members(keys));
      }
    }
  }
}
