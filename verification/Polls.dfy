/** Sizes of injective images. */
module Counting {

  ghost predicate Injective<K(!new)>(m: map<K, nat>) {
    forall a, b :: a in m && b in m && a != b ==> m[a] != m[b]
  }

  /** An injective map has as many values as keys. */
  lemma {:induction false} InjectiveValues<K(!new)>(m: map<K, nat>)
    requires Injective(m)
    ensures |m.Values| == |m|
    decreases |m|
  {
    if m.Keys == {} {
      assert m.Values == {};
    } else {
      var k :| k in m;
      var rest := m - {k};
      InjectiveValues(rest);
      assert m.Values == rest.Values + {m[k]} by {
        forall v | v in m.Values ensures v in rest.Values + {m[k]} {
          var j :| j in m && m[j] == v;
          if j != k {
            assert j in rest && rest[j] == v;
          }
        }
      }
      assert m[k] !in rest.Values;
      assert m.Keys == rest.Keys + {k};
    }
  }
}

/** Counting anonymous statements: what a number of distinct nullifiers proves. */
module Polls {
  import opened Wrappers
  import opened Bytes
  import opened Crypto
  import opened BatchTree
  import opened Exclusion
  import opened Statements
  import opened Counting

  /** One thing nullifiers are counted toward: a vouch session or a proposal, in one epoch,
      against one class's tree and both exclusion sets. */
  datatype Poll = Poll(
    agora: Bytes32, epoch: nat, leaves: seq<Bytes32>, revoked: set<nat>, spent: set<nat>,
    subject: Bytes32, vouching: bool)

  function PollPublic(c: Scheme, p: Poll, nullifier: Bytes32): ChainPublic {
    ChainPublic(p.agora, p.epoch, TreeRoot(c, p.leaves), SetRoot(c, p.revoked), SetRoot(c, p.spent),
                if p.vouching then Vouch(p.subject, nullifier) else PolicyApproval(p.subject, nullifier))
  }

  /** A nullifier counted toward a poll, with the witness that was verified for it. */
  predicate Ballot(c: Scheme, p: Poll, nullifier: Bytes32, w: ChainWitness) {
    ChainType(c, w) && ChainHolds(c, w, PollPublic(c, p, nullifier))
  }

  ghost function BallotQueries(c: Scheme, p: Poll, w: ChainWitness): set<seq<F>> {
    ChainQueries(c, w, p.agora, p.leaves, p.revoked, p.spent)
  }

  /** The nullifiers whose statements hold. */
  function Accepted(c: Scheme, p: Poll, ballots: map<Bytes32, ChainWitness>): set<Bytes32> {
    set n | n in ballots && Ballot(c, p, n, ballots[n])
  }

  predicate Counted(c: Scheme, p: Poll, ballots: map<Bytes32, ChainWitness>) {
    Accepted(c, p, ballots) == ballots.Keys
  }

  lemma CountedBallot(c: Scheme, p: Poll, ballots: map<Bytes32, ChainWitness>, n: Bytes32)
    requires Counted(c, p, ballots) && n in ballots
    ensures Ballot(c, p, n, ballots[n])
  {
    assert n in Accepted(c, p, ballots);
  }

  ghost predicate Hashed(c: Scheme, p: Poll, ballots: map<Bytes32, ChainWitness>, q: set<seq<F>>) {
    forall n :: n in ballots ==> BallotQueries(c, p, ballots[n]) <= q
  }

  /** The positions the counted statements speak from. */
  function Seats(ballots: map<Bytes32, ChainWitness>): map<Bytes32, nat> {
    map n | n in ballots :: ballots[n].leafWitness.index
  }

  /** A ballot from a landed leaf: the counted nullifier is its witness's own, the witness opens
      that very leaf, and the leaf is neither revoked nor, under the key that opens it, spent. */
  ghost predicate InGoodStanding(c: Scheme, p: Poll, n: Bytes32, w: ChainWitness) {
    && Ballot(c, p, n, w)
    && w.leafWitness.index < |p.leaves|
    && OpenedLeaf(c, w, p.agora).Some?
    && Value(p.leaves[w.leafWitness.index]) == Value(OpenedLeaf(c, w, p.agora).value) != 0
    && OrderOf(RevocationKey(c, p.leaves[w.leafWitness.index])) !in p.revoked
    && OrderOf(SpendNullifier(c, w.credentialKey, p.leaves[w.leafWitness.index], p.agora)) !in p.spent
  }

  /** A nullifier is a function of the key, so two of them have two keys. */
  lemma NullifierOfKey(c: Scheme, p: Poll, n: Bytes32, w: ChainWitness, n': Bytes32, w': ChainWitness)
    requires Ballot(c, p, n, w) && Ballot(c, p, n', w') && n != n'
    ensures Value(w.credentialKey) != Value(w'.credentialKey)
  {
  }

  lemma BallotStands(c: Scheme, p: Poll, n: Bytes32, w: ChainWitness, q: set<seq<F>>)
    requires Primitives(c) && InDomain(p.revoked) && InDomain(p.spent)
    requires Ballot(c, p, n, w) && BallotQueries(c, p, w) <= q && CollisionFree(c, q)
    ensures InGoodStanding(c, p, n, w)
  {
    ChainSound(c, w, PollPublic(c, p, n), p.leaves, p.revoked, p.spent, q);
    SpendOfValues(c, w.credentialKey, OpenedLeaf(c, w, p.agora).value, w.credentialKey, p.leaves[w.leafWitness.index], p.agora);
  }

  /** Two ballots under different nullifiers speak from different positions. */
  lemma TwoBallotsTwoSeats(c: Scheme, p: Poll, n: Bytes32, w: ChainWitness, n': Bytes32, w': ChainWitness, q: set<seq<F>>)
    requires Primitives(c) && InDomain(p.revoked) && InDomain(p.spent) && CollisionFree(c, q) && n != n'
    requires Ballot(c, p, n, w) && BallotQueries(c, p, w) <= q
    requires Ballot(c, p, n', w') && BallotQueries(c, p, w') <= q
    ensures w.leafWitness.index != w'.leafWitness.index
  {
    BallotStands(c, p, n, w, q);
    BallotStands(c, p, n', w', q);
    NullifierOfKey(c, p, n, w, n', w');
    if w.leafWitness.index == w'.leafWitness.index {
      OpeningIsQueried(c, p, w, q);
      OpeningIsQueried(c, p, w', q);
      OneLeafOneKey(c, w.rootPublicKey, w.credentialKey, w.rootOpening,
                    w'.rootPublicKey, w'.credentialKey, w'.rootOpening, p.agora, q);
    }
  }

  lemma OpeningIsQueried(c: Scheme, p: Poll, w: ChainWitness, q: set<seq<F>>)
    requires OpenedLeaf(c, w, p.agora).Some? && BallotQueries(c, p, w) <= q
    ensures OpeningPreimage(c, w.rootPublicKey, w.credentialKey, w.rootOpening, p.agora) in q
  {
    var opening := OpeningPreimage(c, w.rootPublicKey, w.credentialKey, w.rootOpening, p.agora);
    assert opening in BallotQueries(c, p, w);
  }

  lemma SeatsInjective(c: Scheme, p: Poll, ballots: map<Bytes32, ChainWitness>, q: set<seq<F>>)
    requires Primitives(c) && InDomain(p.revoked) && InDomain(p.spent)
    requires Counted(c, p, ballots) && Hashed(c, p, ballots, q) && CollisionFree(c, q)
    ensures Injective(Seats(ballots))
  {
    forall n, n' | n in ballots && n' in ballots && n != n' ensures Seats(ballots)[n] != Seats(ballots)[n'] {
      CountedBallot(c, p, ballots, n);
      CountedBallot(c, p, ballots, n');
      TwoBallotsTwoSeats(c, p, n, ballots[n], n', ballots[n'], q);
    }
  }

  ghost predicate AllInGoodStanding(c: Scheme, p: Poll, ballots: map<Bytes32, ChainWitness>) {
    forall n :: n in ballots ==> InGoodStanding(c, p, n, ballots[n])
  }

  lemma AllStand(c: Scheme, p: Poll, ballots: map<Bytes32, ChainWitness>, q: set<seq<F>>)
    requires Primitives(c) && InDomain(p.revoked) && InDomain(p.spent)
    requires Counted(c, p, ballots) && Hashed(c, p, ballots, q) && CollisionFree(c, q)
    ensures AllInGoodStanding(c, p, ballots)
  {
    forall n | n in ballots ensures InGoodStanding(c, p, n, ballots[n]) {
      CountedBallot(c, p, ballots, n);
      BallotStands(c, p, n, ballots[n], q);
    }
  }

  /** As many distinct nullifiers counted, as many distinct landed leaves of that class spoke,
      each in good standing. */
  lemma DistinctMembers(c: Scheme, p: Poll, ballots: map<Bytes32, ChainWitness>, q: set<seq<F>>)
    requires Primitives(c) && InDomain(p.revoked) && InDomain(p.spent)
    requires Counted(c, p, ballots) && Hashed(c, p, ballots, q) && CollisionFree(c, q)
    ensures |Seats(ballots).Values| == |ballots| && AllInGoodStanding(c, p, ballots)
  {
    SeatsInjective(c, p, ballots, q);
    AllStand(c, p, ballots, q);
    SeatCount(ballots);
  }

  lemma SeatCount(ballots: map<Bytes32, ChainWitness>)
    requires Injective(Seats(ballots))
    ensures |Seats(ballots).Values| == |ballots|
  {
    InjectiveValues(Seats(ballots));
    assert Seats(ballots).Keys == ballots.Keys;
  }
}
