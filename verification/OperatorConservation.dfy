/** Who can speak: consumption in force, the number of votes one poll can gather, and the one
    nullifier a credential keeps through its migrations. */
module OperatorConservation {
  import opened Wrappers
  import opened Bytes
  import opened Crypto
  import opened BatchTree
  import opened Exclusion
  import opened Statements
  import opened Decisions
  import opened Operator
  import opened OperatorLayout
  import opened OperatorRuns
  import opened OperatorBallots
  import opened OperatorReceipts
  import opened OperatorMigrations
  import opened OperatorSafety
  import opened OperatorMembership
  import opened Counting
  import opened Polls

  // ---- Consumption in force ----

  /** The accepted migrations of a class whose spend the exclusion set holds. */
  function SpentIn(w: World, k: Bytes32): set<nat> {
    set i | i in MigratedIn(w.g.receipts, k) && OrderOf(w.g.receipts[i].origin.spend) in w.s.spends
  }

  /** The positions those consumed. */
  function SpentPositions(w: World, k: Bytes32): map<nat, nat> {
    map i | i in SpentIn(w, k) :: w.g.receipts[i].origin.consent.oldLeafWitness.index
  }

  /** The positions of a class's landed leaves that no spend in force has consumed. */
  function Unconsumed(w: World, k: Bytes32): set<nat>
    requires k in w.s.classes
  {
    w.s.classes[k].positions.Values - SpentPositions(w, k).Values
  }

  /** The vouched admissions that have landed. */
  function VouchedLanded(receipts: seq<Receipt>, k: Bytes32, epoch: nat): set<nat> {
    set i | i in VouchedIn(receipts, k) && receipts[i].admission.activeFrom <= epoch
  }

  /** A spend is in force exactly from the epoch its migration's successor lands in. */
  lemma SpentWhenLanded(c: Scheme, w: World, i: nat)
    requires Sound(c, w) && i < |w.g.receipts| && w.g.receipts[i].origin.Migrated?
    ensures OrderOf(w.g.receipts[i].origin.spend) in w.s.spends <==> w.g.receipts[i].admission.activeFrom <= w.s.epoch
  {
    hide Core, Covered, GroundOf, Growing, NotYet, Consented, OrderOf, VotesOk, ApprovalsOk, SpendsDistinct, CountsOk, EvidenceOk, ReceiptsOk;
    CoveredNow(c, w.g.genesis, w.g.past, w.s);
    ReceiptHonoured(w, i);
    ReceiptEvidenced(c, w, i);
    if w.g.receipts[i].admission.activeFrom <= w.s.epoch {
      SpendIsRecorded(c, w, i, w.s.epoch);
    }
  }

  lemma {:induction false} EvenCount(n: nat)
    ensures |set p: nat | p < 2 * n && p % 2 == 0| == n
  {
    if n > 0 {
      EvenCount(n - 1);
      assert (set p: nat | p < 2 * n && p % 2 == 0) == (set p: nat | p < 2 * (n - 1) && p % 2 == 0) + {2 * (n - 1)};
    }
  }

  /** A class holds as many leaves as positions, one at each. */
  lemma HeldCount(c: Scheme, cs: ClassState)
    requires ClassOk(c, cs)
    ensures |cs.positions.Values| == cs.occupied
  {
    var evens := set p: nat | p < 2 * cs.occupied && p % 2 == 0;
    forall p | p in evens ensures p in cs.positions.Values {
      assert cs.leaves[p] in cs.positions && cs.positions[cs.leaves[p]] == p;
    }
    assert cs.positions.Values == evens;
    EvenCount(cs.occupied);
  }

  lemma ClassHeld(c: Scheme, w: World, k: Bytes32)
    requires Sound(c, w) && k in w.s.classes
    ensures ClassOk(c, w.s.classes[k]) && Accounted(w, k)
  {
    hide Core, Covered, GroundOf, Growing, ClassOk, ClassesOk, Accounted, VotesOk, ApprovalsOk, EvidenceOk, ReceiptsOk;
    CoreLayout(c, w.s);
    ClassIn(c, w.s.classes, k);
    ClassCounted(w, k);
  }

  /** What a migration consumed is at a held position. */
  lemma SpentIsHeld(c: Scheme, w: World, k: Bytes32, i: nat, q: set<seq<F>>)
    requires Primitives(c) && Sound(c, w) && k in w.s.classes && i in SpentIn(w, k)
    requires AllHashed(c, w, k, q) && CollisionFree(c, q)
    ensures SpentPositions(w, k)[i] in w.s.classes[k].positions.Values
  {
    hide Sound, CollisionFree, ConsentQueries, ClassOk, ConsumedLeaf, OrderOf, SpendNullifier;
    MigrationConsumes(c, w, i, q);
    ClassHeld(c, w, k);
    var index := SpentPositions(w, k)[i];
    SeatIsLanded(c, w.s.classes[k], index);
    assert w.s.classes[k].leaves[index] in w.s.classes[k].positions;
  }

  lemma SpentCount(c: Scheme, w: World, k: Bytes32, q: set<seq<F>>)
    requires Primitives(c) && Reachable(c, w) && AllHashed(c, w, k, q) && CollisionFree(c, q)
    ensures |SpentPositions(w, k).Values| == |SpentIn(w, k)|
  {
    hide Reachable, AllHashed, CollisionFree, OrderOf;
    var m := SpentPositions(w, k);
    forall i, j | i in m && j in m && i != j ensures m[i] != m[j] {
      if i < j {
        ConsumedPositionsDiffer(c, w, k, i, j, q);
      } else {
        ConsumedPositionsDiffer(c, w, k, j, i, q);
      }
    }
    InjectiveValues(m);
    assert m.Keys == SpentIn(w, k);
  }

  /** What has arrived came by vouching or by a migration whose spend is in force. */
  lemma ArrivedSplits(c: Scheme, w: World, k: Bytes32)
    requires Sound(c, w)
    ensures |Arrived(w.g.receipts, k, w.s.epoch)| == |SpentIn(w, k)| + |VouchedLanded(w.g.receipts, k, w.s.epoch)|
  {
    hide Sound, OrderOf;
    forall i | i in MigratedIn(w.g.receipts, k)
      ensures i in SpentIn(w, k) <==> w.g.receipts[i].admission.activeFrom <= w.s.epoch
    {
      SpentWhenLanded(c, w, i);
    }
    assert Arrived(w.g.receipts, k, w.s.epoch) == SpentIn(w, k) + VouchedLanded(w.g.receipts, k, w.s.epoch);
    assert SpentIn(w, k) * VouchedLanded(w.g.receipts, k, w.s.epoch) == {};
  }

  lemma DifferenceSize(a: set<nat>, b: set<nat>)
    requires b <= a
    ensures |a - b| == |a| - |b|
  {
    assert a == (a - b) + b;
  }

  /** Membership in force is conserved, exactly: in every run, in each class, the landed leaves no
      spend in force has consumed are as many as its founder and its landed vouched admissions,
      whatever was migrated, is staged or was dropped. */
  lemma MembershipInForce(c: Scheme, w: World, k: Bytes32, q: set<seq<F>>)
    requires Primitives(c) && Reachable(c, w) && k in w.s.classes && AllHashed(c, w, k, q) && CollisionFree(c, q)
    ensures |Unconsumed(w, k)| == Founders(w.g, k) + |VouchedLanded(w.g.receipts, k, w.s.epoch)|
  {
    hide Reachable, Sound, AllHashed, CollisionFree, ClassOk, SpentIn, VouchedLanded, Arrived, SpentPositions;
    ReachableIsSound(c, w);
    ClassHeld(c, w, k);
    HeldCount(c, w.s.classes[k]);
    SpentWithin(c, w, k, q);
    DifferenceSize(w.s.classes[k].positions.Values, SpentPositions(w, k).Values);
    SpentCount(c, w, k, q);
    ArrivedSplits(c, w, k);
  }

  lemma SpentWithin(c: Scheme, w: World, k: Bytes32, q: set<seq<F>>)
    requires Primitives(c) && Sound(c, w) && k in w.s.classes && AllHashed(c, w, k, q) && CollisionFree(c, q)
    ensures SpentPositions(w, k).Values <= w.s.classes[k].positions.Values
  {
    hide Sound, AllHashed, CollisionFree, SpentIn;
    forall p | p in SpentPositions(w, k).Values ensures p in w.s.classes[k].positions.Values {
      var i :| i in SpentPositions(w, k) && SpentPositions(w, k)[i] == p;
      SpentIsHeld(c, w, k, i, q);
    }
  }

  // ---- How many can vote ----

  /** A ballot opening the very leaf a migration consumed is under that migration's spend. */
  lemma SameLeafSameSpend(c: Scheme, w: World, k: Bytes32, i: nat, p: Poll, x: ChainWitness, q: set<seq<F>>)
    requires Primitives(c) && Sound(c, w) && k in w.s.classes && AllHashed(c, w, k, q) && CollisionFree(c, q)
    requires p.agora == w.s.agora && p.leaves == w.s.classes[k].leaves && BallotQueries(c, p, x) <= q
    requires x.leafWitness.index < |p.leaves| && OpenedLeaf(c, x, w.s.agora).Some?
    requires Value(p.leaves[x.leafWitness.index]) == Value(OpenedLeaf(c, x, w.s.agora).value)
    requires i in MigratedIn(w.g.receipts, k) && w.g.receipts[i].origin.consent.oldLeafWitness.index == x.leafWitness.index
    ensures w.g.receipts[i].origin.spend == SpendNullifier(c, x.credentialKey, p.leaves[x.leafWitness.index], w.s.agora)
  {
    hide Sound, ConsentQueries, CollisionFree, OrderOf, SpendNullifier, Ballot, BallotQueries, OpenedLeaf, OldLeaf, RevocationKey, OpeningPreimage;
    var r := w.g.receipts[i];
    MigrationConsumes(c, w, i, q);
    ReceiptConsented(c, w, i);
    OldOpeningIsQueried(c, w, r, q);
    OpeningIsQueried(c, p, x, q);
    SameOpenedSpend(c, r.origin.consent, x, w.s.agora, q);
    SpendOfValues(c, x.credentialKey, OpenedLeaf(c, x, w.s.agora).value, x.credentialKey, p.leaves[x.leafWitness.index], w.s.agora);
  }

  /** No ballot speaks from a leaf whose consumption is in force. */
  lemma BallotIsUnconsumed(c: Scheme, w: World, k: Bytes32, subject: Bytes32, vouching: bool, n: Bytes32, x: ChainWitness, q: set<seq<F>>)
    requires Primitives(c) && Sound(c, w) && k in w.s.classes && AllHashed(c, w, k, q) && CollisionFree(c, q)
    requires Ballot(c, PollOn(w.s, k, subject, vouching), n, x)
    requires BallotQueries(c, PollOn(w.s, k, subject, vouching), x) <= q
    ensures x.leafWitness.index in Unconsumed(w, k)
  {
    hide Sound, ConsentQueries, CollisionFree, ClassOk, OrderOf, SpendNullifier, Ballot, BallotQueries, OpenedLeaf, ConsumedLeaf, RevocationKey;
    var p := PollOn(w.s, k, subject, vouching);
    SoundSets(c, w);
    ClassHeld(c, w, k);
    BallotStands(c, p, n, x, q);
    SeatIsLanded(c, w.s.classes[k], x.leafWitness.index);
    assert w.s.classes[k].leaves[x.leafWitness.index] in w.s.classes[k].positions;
    if x.leafWitness.index in SpentPositions(w, k).Values {
      var i :| i in SpentPositions(w, k) && SpentPositions(w, k)[i] == x.leafWitness.index;
      SameLeafSameSpend(c, w, k, i, p, x, q);
      assert false;
    }
  }

  lemma SoundSets(c: Scheme, w: World)
    requires Sound(c, w)
    ensures InDomain(w.s.revocations) && InDomain(w.s.spends)
  {
    hide Core, Covered, GroundOf;
    CoreSets(c, w.s);
  }

  /** In one poll of a class there are never more votes than its founder and its landed vouched
      admissions: migrating gains nobody a vote. */
  lemma VotesWithinMembers(c: Scheme, w: World, k: Bytes32, subject: Bytes32, vouching: bool,
                           ballots: map<Bytes32, ChainWitness>, q: set<seq<F>>)
    requires Primitives(c) && Reachable(c, w) && k in w.s.classes && AllHashed(c, w, k, q) && CollisionFree(c, q)
    requires Polls.Counted(c, PollOn(w.s, k, subject, vouching), ballots) && Hashed(c, PollOn(w.s, k, subject, vouching), ballots, q)
    ensures |ballots| <= Founders(w.g, k) + |VouchedLanded(w.g.receipts, k, w.s.epoch)|
  {
    hide Reachable, Sound, AllHashed, CollisionFree, Polls.Counted, BallotQueries, Ballot, Unconsumed, VouchedLanded, Injective;
    ReachableIsSound(c, w);
    SoundSets(c, w);
    MembershipInForce(c, w, k, q);
    DistinctMembers(c, PollOn(w.s, k, subject, vouching), ballots, q);
    forall p | p in Seats(ballots).Values ensures p in Unconsumed(w, k) {
      var n :| n in Seats(ballots) && Seats(ballots)[n] == p;
      CountedBallot(c, PollOn(w.s, k, subject, vouching), ballots, n);
      BallotIsUnconsumed(c, w, k, subject, vouching, n, ballots[n], q);
    }
    SubsetSize(Seats(ballots).Values, Unconsumed(w, k));
  }

  /** So in every run no proposal ever counts more approvals than that. */
  lemma ApprovalsWithinMembers(c: Scheme, w: World, subject: Bytes32, q: set<seq<F>>)
    requires Primitives(c) && Reachable(c, w) && subject in w.s.proposals && CollisionFree(c, q)
    requires AllHashed(c, w, w.s.proposals[subject].approving, q)
    requires Hashed(c, ApprovalPoll(GroundOf(w.s), w.s.proposals[subject].approving, subject),
                    BallotsFor(w.g.approvals, subject, w.s.proposals[subject].approvals), q)
    ensures var p := w.s.proposals[subject];
            |p.approvals| <= Founders(w.g, p.approving) + |VouchedLanded(w.g.receipts, p.approving, w.s.epoch)|
  {
    hide Reachable, Core, AllHashed, CollisionFree, Hashed, Polls.Counted, VouchedLanded, BallotsFor, Tallied, ApprovalPoll, GroundOf;
    ReachableIsSound(c, w);
    ProposalBacked(c, w, subject);
    ApprovalPollIs(c, w.s, subject);
    var p := w.s.proposals[subject];
    TalliedBallots(c, ApprovalPoll(GroundOf(w.s), p.approving, subject), w.g.approvals, p.approvals);
    VotesWithinMembers(c, w, p.approving, subject, false, BallotsFor(w.g.approvals, subject, p.approvals), q);
  }

  // ---- One nullifier a lineage ----

  /** What the successor's leaf hashes. */
  function SuccessorPreimage(c: Scheme, m: MigrationWitness, agora: Bytes32): seq<F>
    requires DecodePoint(c, m.successorPublicKey).Some?
  {
    OpeningPreimage(c, m.successorPublicKey, m.credentialKey, m.successorOpening, agora)
  }

  /** The receipt's migration, with the opening of its successor among the queries. */
  ghost predicate SuccessorHashed(c: Scheme, w: World, r: Receipt, q: set<seq<F>>) {
    && r.origin.Migrated?
    && (DecodePoint(c, r.origin.consent.successorPublicKey).Some? ==> SuccessorPreimage(c, r.origin.consent, w.s.agora) in q)
  }

  lemma SuccessorOpened(c: Scheme, w: World, i: nat)
    requires Sound(c, w) && i < |w.g.receipts| && w.g.receipts[i].origin.Migrated?
    ensures var m := w.g.receipts[i].origin.consent;
            Commit(c, m.successorPublicKey, m.credentialKey, m.successorOpening, w.s.agora) == Some(w.g.receipts[i].leaf)
  {
    hide Sound, MigrationType, Verifies, VerifiesAbsent, SuccessorAuthorized, OldLeaf, Commit, RevocationKey, SpendNullifier, TreeRoot, SetRoot;
    ReceiptConsented(c, w, i);
  }

  /** The successor of an accepted migration opens only with the consumed leaf's credential key. */
  lemma SuccessorKeepsKey(c: Scheme, w: World, i: nat, pk: seq<byte>, key: Bytes32, opening: Bytes32, q: set<seq<F>>)
    requires Primitives(c) && Sound(c, w) && i < |w.g.receipts| && SuccessorHashed(c, w, w.g.receipts[i], q) && CollisionFree(c, q)
    requires Commit(c, pk, key, opening, w.s.agora).Some? && OpeningPreimage(c, pk, key, opening, w.s.agora) in q
    requires Value(Commit(c, pk, key, opening, w.s.agora).value) == Value(w.g.receipts[i].leaf)
    ensures Value(key) == Value(w.g.receipts[i].origin.consent.credentialKey)
  {
    hide Sound, CollisionFree, OpeningPreimage;
    SuccessorOpened(c, w, i);
    var m := w.g.receipts[i].origin.consent;
    OneLeafOneKey(c, pk, key, opening, m.successorPublicKey, m.credentialKey, m.successorOpening, w.s.agora, q);
  }

  /** Accepted migrations, each consuming the leaf the one before it produced. */
  ghost predicate Lineage(c: Scheme, w: World, chain: seq<nat>) {
    && |chain| > 0
    && (forall t :: 0 <= t < |chain| ==> chain[t] < |w.g.receipts| && w.g.receipts[chain[t]].origin.Migrated?)
    && (forall t :: 0 < t < |chain| ==>
          && ConsumedLeaf(c, w, w.g.receipts[chain[t]]).Some?
          && Value(ConsumedLeaf(c, w, w.g.receipts[chain[t]]).value) == Value(w.g.receipts[chain[t - 1]].leaf))
  }

  /** Everything hashed to open a lineage's leaves. */
  ghost predicate LineageHashed(c: Scheme, w: World, chain: seq<nat>, q: set<seq<F>>)
    requires Lineage(c, w, chain)
  {
    forall t :: 0 <= t < |chain| ==>
      && SuccessorHashed(c, w, w.g.receipts[chain[t]], q)
      && ConsentQueries(c, w, w.g.receipts[chain[t]]) <= q
  }

  /** The key of one migration in a lineage. */
  function KeyOf(w: World, i: nat): F
    requires i < |w.g.receipts| && w.g.receipts[i].origin.Migrated?
  {
    Value(w.g.receipts[i].origin.consent.credentialKey)
  }

  /** One credential key runs through a whole lineage. */
  lemma {:induction false} LineageOneKey(c: Scheme, w: World, chain: seq<nat>, q: set<seq<F>>)
    requires Primitives(c) && Sound(c, w) && Lineage(c, w, chain) && LineageHashed(c, w, chain, q) && CollisionFree(c, q)
    ensures KeyOf(w, chain[0]) == KeyOf(w, chain[|chain| - 1])
  {
    hide Sound, CollisionFree, ConsentQueries, SuccessorHashed, OldLeaf;
    if |chain| > 1 {
      var init := chain[..|chain| - 1];
      LineageOneKey(c, w, init, q);
      LinkOneKey(c, w, chain[|chain| - 2], chain[|chain| - 1], q);
    }
  }

  lemma LinkOneKey(c: Scheme, w: World, i: nat, j: nat, q: set<seq<F>>)
    requires Primitives(c) && Sound(c, w) && i < |w.g.receipts| && j < |w.g.receipts| && CollisionFree(c, q)
    requires w.g.receipts[j].origin.Migrated? && ConsentQueries(c, w, w.g.receipts[j]) <= q
    requires SuccessorHashed(c, w, w.g.receipts[i], q)
    requires ConsumedLeaf(c, w, w.g.receipts[j]).Some?
    requires Value(ConsumedLeaf(c, w, w.g.receipts[j]).value) == Value(w.g.receipts[i].leaf)
    ensures KeyOf(w, i) == KeyOf(w, j)
  {
    hide Sound, CollisionFree, ConsentQueries, SuccessorHashed, OpeningPreimage;
    var m := w.g.receipts[j].origin.consent;
    ReceiptConsented(c, w, j);
    OldOpeningIsQueried(c, w, w.g.receipts[j], q);
    SuccessorKeepsKey(c, w, i, m.oldRootPublicKey, m.credentialKey, m.oldRootOpening, q);
  }

  lemma NullifierOfValues(c: Scheme, p: Poll, n: Bytes32, x: ChainWitness, p': Poll, n': Bytes32, y: ChainWitness)
    requires Ballot(c, p, n, x) && Ballot(c, p', n', y)
    requires p'.agora == p.agora && p'.subject == p.subject && p'.vouching == p.vouching
    requires Value(x.credentialKey) == Value(y.credentialKey)
    ensures n == n'
  {
    hide Verifies, VerifiesAbsent, EpochKeyCertified, ChainType, RevocationKey, SpendNullifier, TreeRoot, SetRoot, OpenedLeaf;
  }

  /** A member has one nullifier per subject through every migration: whoever opens the leaf a
      lineage started from and whoever opens the leaf it ended in, on one subject, under any two
      epochs' roots, claim the same nullifier, and are counted once. */
  lemma LineageOneNullifier(c: Scheme, w: World, chain: seq<nat>, p: Poll, n: Bytes32, x: ChainWitness,
                            p': Poll, n': Bytes32, y: ChainWitness, q: set<seq<F>>)
    requires Primitives(c) && Reachable(c, w) && Lineage(c, w, chain) && LineageHashed(c, w, chain, q) && CollisionFree(c, q)
    requires p.agora == p'.agora == w.s.agora && p'.subject == p.subject && p'.vouching == p.vouching
    requires Ballot(c, p, n, x) && BallotQueries(c, p, x) <= q && Ballot(c, p', n', y) && BallotQueries(c, p', y) <= q
    requires OpenedLeaf(c, x, w.s.agora).Some? && ConsumedLeaf(c, w, w.g.receipts[chain[0]]).Some?
    requires Value(OpenedLeaf(c, x, w.s.agora).value) == Value(ConsumedLeaf(c, w, w.g.receipts[chain[0]]).value)
    requires OpenedLeaf(c, y, w.s.agora).Some?
    requires Value(OpenedLeaf(c, y, w.s.agora).value) == Value(w.g.receipts[chain[|chain| - 1]].leaf)
    ensures n == n'
  {
    hide Reachable, Sound, CollisionFree, ConsentQueries, BallotQueries, SuccessorHashed, Ballot, OpeningPreimage;
    ReachableIsSound(c, w);
    LineageOneKey(c, w, chain, q);
    OpeningIsQueried(c, p, x, q);
    OpeningIsQueried(c, p', y, q);
    var first := w.g.receipts[chain[0]];
    ReceiptConsented(c, w, chain[0]);
    OldOpeningIsQueried(c, w, first, q);
    var m := first.origin.consent;
    OneLeafOneKey(c, x.rootPublicKey, x.credentialKey, x.rootOpening, m.oldRootPublicKey, m.credentialKey, m.oldRootOpening, w.s.agora, q);
    SuccessorKeepsKey(c, w, chain[|chain| - 1], y.rootPublicKey, y.credentialKey, y.rootOpening, q);
    NullifierOfValues(c, p, n, x, p', n', y);
  }
}
