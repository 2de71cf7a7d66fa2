/** What every run conserves: leaves, spends, promises, revocations and roots. */
module OperatorMembership {
  import opened Wrappers
  import opened Bytes
  import opened Crypto
  import opened BatchTree
  import opened Exclusion
  import opened Statements
  import opened Decisions
  import opened Operator
  import opened OperatorLayout
  import opened OperatorRuns
  import opened OperatorReceipts
  import opened OperatorMigrations
  import opened OperatorSafety
  import opened Counting

  // ---- Later worlds ----

  /** What no run undoes. */
  ghost predicate Later(w: World, w': World) {
    && w'.s.agora == w.s.agora && w'.g.genesis == w.g.genesis
    && w.s.epoch <= w'.s.epoch
    && (forall e :: e in w.g.past ==> e in w'.g.past && w'.g.past[e] == w.g.past[e])
    && w.g.receipts <= w'.g.receipts
    && w.s.revokedLeaves <= w'.s.revokedLeaves
    && (w.s.dissolved ==> w'.s == w.s)
  }

  lemma VotingRevokesNothing(c: Scheme, s: State, id: Bytes32, proof: StubProof<ChainWitness>, n: Bytes32)
    ensures VouchAttest(c, s, id, proof, n).0.revokedLeaves == s.revokedLeaves
    ensures Approve(c, s, id, proof, n).0.revokedLeaves == s.revokedLeaves
    ensures RedeemAccess(c, s, id, proof, n).0.revokedLeaves == s.revokedLeaves
  {
    hide VerifyChain, RootsIn;
  }

  lemma AdmittingRevokesNothing(c: Scheme, s: State, id: Bytes32)
    ensures VouchFinalize(c, s, id).0.revokedLeaves == s.revokedLeaves
  {
    hide VouchFinalize;
    FinalizeOnly(c, s, id);
  }

  lemma MigrateRevokesNothing(c: Scheme, s: State, k: Bytes32, proof: StubProof<MigrationWitness>,
                              spend: Bytes32, successor: Bytes32, inbox: Bytes32)
    ensures Migrate(c, s, k, proof, spend, successor, inbox).0.revokedLeaves == s.revokedLeaves
  {
    hide Migrate;
    MigrateOnly(c, s, k, proof, spend, successor, inbox);
  }

  lemma OpeningRevokesNothing(c: Scheme, s: State, a: Bytes32, b: Bytes32, id: Bytes32, d: Decision)
    ensures CredentialsInit(s, a, b).0.revokedLeaves == s.revokedLeaves
    ensures StartVouch(c, s, a, b, id).0.revokedLeaves == s.revokedLeaves
    ensures IssueChallenge(s, a).0.revokedLeaves == s.revokedLeaves
    ensures Propose(c, s, d, a, b).0.revokedLeaves == s.revokedLeaves
  {
    hide Remaining;
  }

  lemma CertifyingRevokesNothing(c: Scheme, s: State, leaf: Bytes32, inbox: Bytes32, action: InboxAction,
                                 proof: StubProof<InboxWitness>)
    ensures InboxCertificate(c, s, leaf, inbox, action, proof).0.revokedLeaves == s.revokedLeaves
  {
    hide VerifyInbox, Landed;
  }

  lemma AdvanceOnlyRevokes(c: Scheme, s: State)
    requires Primitives(c) && Core(c, s)
    ensures s.revokedLeaves <= AdvanceEpoch(c, s).0.revokedLeaves
  {
    hide Core, Boundary, LandedAll;
    AdvanceValue(c, s);
    BoundaryFields(c, s);
  }

  lemma ExecuteOnlyRevokes(c: Scheme, s: State, subject: Bytes32)
    requires Primitives(c) && Core(c, s)
    ensures s.revokedLeaves <= Execute(c, s, subject).0.revokedLeaves
  {
    hide Core, Boundary, LandedAll, AdvanceEpoch;
    if Executes(s, subject) {
      ConsumedKeeps(c, s, subject);
      ExecuteValue(c, s, subject);
      AdvanceOnlyRevokes(c, Consumed(s, subject));
    }
  }

  lemma StepOnlyRevokes(c: Scheme, s: State, step: Step)
    requires Primitives(c) && Core(c, s)
    ensures s.revokedLeaves <= Apply(c, s, step).0.revokedLeaves
  {
    hide Core, CredentialsInit, StartVouch, VouchFinalize, Migrate, Propose, Execute, InboxCertificate,
      AdvanceEpoch, IssueChallenge, RedeemAccess, VouchAttest, Approve;
    match step {
      case Init(commitment, inbox) => OpeningRevokesNothing(c, s, commitment, inbox, ZERO32, Dissolution);
      case Start(candidate, target, id) => OpeningRevokesNothing(c, s, candidate, target, id, Dissolution);
      case Attest(id, proof, n) => VotingRevokesNothing(c, s, id, proof, n);
      case Approving(id, proof, n) => VotingRevokesNothing(c, s, id, proof, n);
      case Finalize(id) => AdmittingRevokesNothing(c, s, id);
      case Migrating(k, proof, spend, successor, inbox) => MigrateRevokesNothing(c, s, k, proof, spend, successor, inbox);
      case Proposing(d, k, nonce) => OpeningRevokesNothing(c, s, k, nonce, k, d);
      case Executing(subject) => ExecuteOnlyRevokes(c, s, subject);
      case Certifying(leaf, inbox, action, proof) => CertifyingRevokesNothing(c, s, leaf, inbox, action, proof);
      case Advancing => AdvanceOnlyRevokes(c, s);
      case Challenging(entropy) => OpeningRevokesNothing(c, s, entropy, entropy, entropy, Dissolution);
      case Redeeming(k, proof, challenge) => VotingRevokesNothing(c, s, k, proof, challenge);
    }
  }

  lemma StepEpoch(c: Scheme, s: State, step: Step)
    requires Primitives(c) && Core(c, s)
    ensures Apply(c, s, step).0.epoch == if Crossing(s, step).Some? then s.epoch + 1 else s.epoch
  {
    hide Core, Apply, GroundOf, Crossing, Boundary;
    if Crossing(s, step).Some? {
      CrossingIsBoundary(c, s, step);
      GroundParts(s, Crossing(s, step).value);
      BoundaryFields(c, Crossing(s, step).value);
    } else {
      StepKeepsGround(c, s, step);
      GroundParts(s, Apply(c, s, step).0);
    }
  }

  lemma StepIsLater(c: Scheme, w: World, step: Step)
    requires Primitives(c) && Sound(c, w)
    ensures Later(w, Next(c, w, step))
  {
    hide Core, Apply, Next, GroundOf, Covered, Issued, Growing;
    NextFields(c, w, step);
    PastStays(c, w, step);
    StepOnlyRevokes(c, w.s, step);
    StepEpoch(c, w.s, step);
    if w.s.dissolved {
      FrozenForever(c, w.s, step);
    }
  }

  lemma LaterTransitive(u: World, v: World, w: World)
    requires Later(u, v) && Later(v, w)
    ensures Later(u, w)
  {
  }

  /** Past roots are never rewritten, receipts never withdrawn, revocations never lifted, and a
      dissolved agora never changes again. */
  lemma {:induction false} RunIsLater(c: Scheme, w: World, steps: seq<Step>)
    requires Primitives(c) && Sound(c, w)
    ensures Later(w, Run(c, w, steps))
  {
    hide Sound, Next;
    if |steps| > 0 {
      var before := Run(c, w, steps[..|steps| - 1]);
      RunIsLater(c, w, steps[..|steps| - 1]);
      RunKeepsSound(c, w, steps[..|steps| - 1]);
      StepIsLater(c, before, steps[|steps| - 1]);
      LaterTransitive(w, before, Run(c, w, steps));
    }
  }

  // ---- Roots are fixed per epoch ----

  /** History covers exactly genesis to now, and its current entry is the roots of the live
      trees and sets. */
  lemma HistoryIsNow(c: Scheme, w: World)
    requires Primitives(c) && Reachable(c, w)
    ensures forall e :: e in w.s.history <==> w.g.genesis <= e <= w.s.epoch
    ensures w.s.epoch in w.s.history
    ensures w.s.history[w.s.epoch] == SnapshotOf(c, w.s.classes, w.s.revocations, w.s.spends)
  {
    hide Core, Reachable, Growing, RootsOf, SnapshotOf;
    ReachableIsSound(c, w);
    SnapshotIsRoots(c, w.s);
    assert w.s.epoch in w.g.past;
  }

  lemma PastRoots(c: Scheme, w: World, e: nat)
    requires Sound(c, w) && e in w.g.past
    ensures e in w.s.history && w.s.history[e] == RootsOf(c, w.g.past[e])
  {
    hide Core, RootsOf, TreesOf;
  }

  /** The trees of now extend those of every earlier epoch. */
  lemma PastPrefixes(c: Scheme, w: World, e: nat)
    requires Sound(c, w) && e in w.g.past
    ensures Extends(w.g.past[e], TreesOf(w.s))
  {
    hide Core, Covered, TreesOf, GroundOf, Growing;
    CoveredNow(c, w.g.genesis, w.g.past, w.s);
    GrewFrom(w.g.past, e, w.s.epoch);
  }

  /** Whatever steps follow, no recorded root changes and every tree only grows. */
  lemma RootsAreFixed(c: Scheme, w: World, steps: seq<Step>, e: nat)
    requires Primitives(c) && Reachable(c, w) && e in w.s.history
    ensures var w' := Run(c, w, steps);
            && e in w'.s.history && w'.s.history[e] == w.s.history[e]
            && Extends(TreesOf(w.s), TreesOf(w'.s))
  {
    hide Core, Reachable, Sound, RootsOf, Extends, Run, TreesOf, Growing;
    ReachableIsSound(c, w);
    RunKeepsSound(c, w, steps);
    RunIsLater(c, w, steps);
    var w' := Run(c, w, steps);
    NowCovered(c, w);
    PastRoots(c, w, e);
    PastRoots(c, w', e);
    PastPrefixes(c, w', w.s.epoch);
  }

  lemma NowCovered(c: Scheme, w: World)
    requires Sound(c, w)
    ensures w.s.epoch in w.g.past && w.g.past[w.s.epoch] == TreesOf(w.s) && w.g.past.Keys == w.s.history.Keys
  {
    hide Core, RootsOf, TreesOf, VouchersOf;
  }

  /** Capacity never underflows, a live boundary never fails, and governance never loosens past
      its floors. */
  lemma AlwaysGoverned(c: Scheme, w: World)
    requires Primitives(c) && Reachable(c, w)
    ensures forall k :: Remaining(c, w.s, k) >= 0
    ensures Live(w.s) ==> AdvanceEpoch(c, w.s).1 == Ok(Advanced)
    ensures w.s.quorum >= 1 && w.s.horizon >= MIN_INBOX_HORIZON
    ensures forall k :: k in w.s.classes ==> ClassOk(c, w.s.classes[k]) && w.s.classes[k].policy.threshold >= 1
  {
    hide Core, Reachable, Boundary, Remaining, ClassOk, ClassesOk, LandedAll;
    ReachableIsSound(c, w);
    CoreGoverned(c, w.s);
    CoreLayout(c, w.s);
    AdvanceValue(c, w.s);
    forall k ensures Remaining(c, w.s, k) >= 0 {
      RemainingIsNatural(c, w.s, k);
    }
    forall k | k in w.s.classes ensures ClassOk(c, w.s.classes[k]) && w.s.classes[k].policy.threshold >= 1 {
      ClassIn(c, w.s.classes, k);
      assert PolicyOk(w.s.classes, w.s.classes[k].policy);
    }
  }

  // ---- Promises ----

  lemma LandedStays(t: Trees, u: Trees, r: Receipt)
    requires LandedIn(t, r) && Extends(t, u)
    ensures LandedIn(u, r)
  {
  }

  lemma NotYetBefore(t: Trees, u: Trees, r: Receipt)
    requires NotYet(u, r) && Extends(t, u)
    ensures NotYet(t, r)
  {
  }

  lemma NextLands(c: Scheme, w: World, r: Receipt)
    requires Primitives(c) && Core(c, w.s) && Honoured(w, r) && w.s.epoch < r.admission.activeFrom && !w.s.dissolved
    ensures LandedIn(TreesOf(Next(c, w, Advancing).s), r)
  {
    hide Core, Boundary, LandedAll, LandedIn, NotYet, Pending, TreesOf, PastAfter;
    AdvanceValue(c, w.s);
    BoundaryLands(c, w.s, r);
  }

  /** Every admission promised: before its epoch the class's tree does not reach the promised
      position; from its epoch on the leaf is there; and until then, unless the agora is
      dissolved, the next boundary will put it there. */
  lemma PromiseKept(c: Scheme, w: World, i: nat, e: nat)
    requires Primitives(c) && Reachable(c, w) && i < |w.g.receipts| && e in w.g.past
    ensures var r := w.g.receipts[i];
            && (e < r.admission.activeFrom ==> NotYet(w.g.past[e], r))
            && (e >= r.admission.activeFrom ==> LandedIn(w.g.past[e], r))
            && (w.s.epoch < r.admission.activeFrom && !w.s.dissolved ==>
                  r.admission.activeFrom == w.s.epoch + 1 && LandedIn(TreesOf(Next(c, w, Advancing).s), r))
  {
    hide Core, Reachable, LandedIn, NotYet, TreesOf, Next, EvidenceOk, SpendsDistinct, CountsOk;
    ReachableIsSound(c, w);
    var r := w.g.receipts[i];
    ReceiptHonoured(w, i);
    CoveredNow(c, w.g.genesis, w.g.past, w.s);
    if e < r.admission.activeFrom {
      GrewFrom(w.g.past, e, r.admission.activeFrom - 1);
      NotYetBefore(w.g.past[e], w.g.past[r.admission.activeFrom - 1], r);
    } else {
      GrewFrom(w.g.past, r.admission.activeFrom, e);
      LandedStays(w.g.past[r.admission.activeFrom], w.g.past[e], r);
    }
    if w.s.epoch < r.admission.activeFrom && !w.s.dissolved {
      NextLands(c, w, r);
    }
  }

  // ---- Consumption ----

  /** The epoch a receipt was given in. */
  function GivenIn(r: Receipt): int {
    r.admission.activeFrom - 1
  }

  /** Everything hashed to accept a migration against the trees of its epoch. */
  ghost function ConsentQueries(c: Scheme, w: World, r: Receipt): set<seq<F>>
    requires r.origin.Migrated?
  {
    if GivenIn(r) in w.g.past && r.class_ in w.g.past[GivenIn(r)].leaves
    then MigrationQueries(c, r.origin.consent, w.s.agora, w.g.past[GivenIn(r)].leaves[r.class_], w.g.past[GivenIn(r)].revoked)
    else {}
  }

  /** The leaf a migration's consent opens. */
  function ConsumedLeaf(c: Scheme, w: World, r: Receipt): Option<Bytes32>
    requires r.origin.Migrated?
  {
    OldLeaf(c, r.origin.consent, w.s.agora)
  }

  /** The consumed leaf as landed: at an even position of the receipt's own class, and spent by
      the receipt's spend. */
  ghost predicate ConsumedAt(c: Scheme, w: World, r: Receipt, position: nat)
    requires r.origin.Migrated?
  {
    && ConsumedLeaf(c, w, r).Some?
    && r.class_ in w.s.classes
    && position < |w.s.classes[r.class_].leaves|
    && Value(w.s.classes[r.class_].leaves[position]) == Value(ConsumedLeaf(c, w, r).value) != 0
    && r.origin.spend == SpendNullifier(c, r.origin.consent.credentialKey, ConsumedLeaf(c, w, r).value, w.s.agora)
  }

  lemma PastDomains(c: Scheme, w: World, e: nat)
    requires Sound(c, w) && e in w.g.past
    ensures InDomain(w.g.past[e].revoked) && InDomain(w.g.past[e].spent)
  {
    hide Core, Covered, GroundOf, Growing, LeavesOf;
    CoreSets(c, w.s);
    PastPrefixes(c, w, e);
  }

  lemma ReceiptConsented(c: Scheme, w: World, i: nat)
    requires Sound(c, w) && i < |w.g.receipts| && w.g.receipts[i].origin.Migrated?
    ensures GivenIn(w.g.receipts[i]) in w.g.past
    ensures Consented(c, w.s.agora, w.g.past[GivenIn(w.g.receipts[i])], w.g.receipts[i])
  {
    hide Core, Covered, Consented;
    ReceiptEvidenced(c, w, i);
  }

  lemma ConsentOpens(c: Scheme, agora: Bytes32, t: Trees, r: Receipt, q: set<seq<F>>)
    requires Primitives(c) && r.origin.Migrated? && Consented(c, agora, t, r) && InDomain(t.revoked)
    requires MigrationQueries(c, r.origin.consent, agora, t.leaves[r.class_], t.revoked) <= q && CollisionFree(c, q)
    ensures OldLeaf(c, r.origin.consent, agora).Some?
    ensures var leaf, index := OldLeaf(c, r.origin.consent, agora).value, r.origin.consent.oldLeafWitness.index;
            && index < |t.leaves[r.class_]|
            && Value(t.leaves[r.class_][index]) == Value(leaf) != 0
            && r.origin.spend == SpendNullifier(c, r.origin.consent.credentialKey, leaf, agora)
            && OrderOf(RevocationKey(c, leaf)) !in t.revoked
  {
    MigrationSound(c, r.origin.consent, ConsentPublic(c, agora, t, r), t.leaves[r.class_], t.revoked, q);
  }

  /** An accepted migration consumed a leaf that had landed in its class. */
  lemma MigrationConsumes(c: Scheme, w: World, i: nat, q: set<seq<F>>)
    requires Primitives(c) && Sound(c, w) && i < |w.g.receipts| && w.g.receipts[i].origin.Migrated?
    requires ConsentQueries(c, w, w.g.receipts[i]) <= q && CollisionFree(c, q)
    ensures ConsumedAt(c, w, w.g.receipts[i], w.g.receipts[i].origin.consent.oldLeafWitness.index)
  {
    hide Sound, MigrationQueries, CollisionFree, MigrationHolds, MigrationType, SpendNullifier, RevocationKey, OrderOf, OldLeaf;
    var r := w.g.receipts[i];
    ReceiptConsented(c, w, i);
    PastDomains(c, w, GivenIn(r));
    PastPrefixes(c, w, GivenIn(r));
    ConsentOpens(c, w.s.agora, w.g.past[GivenIn(r)], r, q);
    PrefixAt(w.g.past[GivenIn(r)], w.s, r.class_, r.origin.consent.oldLeafWitness.index);
  }

  lemma PrefixAt(t: Trees, s: State, k: Bytes32, index: nat)
    requires Extends(t, TreesOf(s)) && k in t.leaves && index < |t.leaves[k]|
    ensures k in s.classes && index < |s.classes[k].leaves| && s.classes[k].leaves[index] == t.leaves[k][index]
  {
    assert k in TreesOf(s).leaves;
  }

  lemma OldOpeningIsQueried(c: Scheme, w: World, r: Receipt, q: set<seq<F>>)
    requires r.origin.Migrated? && GivenIn(r) in w.g.past && r.class_ in w.g.past[GivenIn(r)].leaves
    requires ConsentQueries(c, w, r) <= q && ConsumedLeaf(c, w, r).Some?
    ensures OpeningPreimage(c, r.origin.consent.oldRootPublicKey, r.origin.consent.credentialKey,
                            r.origin.consent.oldRootOpening, w.s.agora) in q
  {
    hide WitnessQueries, AbsenceQueries;
    assert OpeningPreimage(c, r.origin.consent.oldRootPublicKey, r.origin.consent.credentialKey,
                           r.origin.consent.oldRootOpening, w.s.agora) in ConsentQueries(c, w, r);
  }

  /** Two accepted migrations never consume the same leaf, in the same class or in different
      ones. */
  lemma MigrationsConsumeDistinctLeaves(c: Scheme, w: World, i: nat, j: nat, q: set<seq<F>>)
    requires Primitives(c) && Reachable(c, w) && i < j < |w.g.receipts|
    requires w.g.receipts[i].origin.Migrated? && w.g.receipts[j].origin.Migrated?
    requires ConsentQueries(c, w, w.g.receipts[i]) <= q && ConsentQueries(c, w, w.g.receipts[j]) <= q && CollisionFree(c, q)
    ensures w.g.receipts[i].origin.spend != w.g.receipts[j].origin.spend
    ensures ConsumedLeaf(c, w, w.g.receipts[i]).Some? && ConsumedLeaf(c, w, w.g.receipts[j]).Some?
    ensures Value(ConsumedLeaf(c, w, w.g.receipts[i]).value) != Value(ConsumedLeaf(c, w, w.g.receipts[j]).value)
  {
    hide Reachable, ConsentQueries, CollisionFree, Core, Covered, Growing, OpeningPreimage, SpendNullifier, EvidenceOk, ReceiptsOk;
    ReachableIsSound(c, w);
    var a, b := w.g.receipts[i], w.g.receipts[j];
    MigrationConsumes(c, w, i, q);
    MigrationConsumes(c, w, j, q);
    ReceiptConsented(c, w, i);
    ReceiptConsented(c, w, j);
    OldOpeningIsQueried(c, w, a, q);
    OldOpeningIsQueried(c, w, b, q);
    if Value(ConsumedLeaf(c, w, a).value) == Value(ConsumedLeaf(c, w, b).value) {
      var x, y := a.origin.consent, b.origin.consent;
      OneLeafOneKey(c, x.oldRootPublicKey, x.credentialKey, x.oldRootOpening,
                    y.oldRootPublicKey, y.credentialKey, y.oldRootOpening, w.s.agora, q);
      SpendOfValues(c, x.credentialKey, ConsumedLeaf(c, w, a).value, y.credentialKey, ConsumedLeaf(c, w, b).value, w.s.agora);
    }
  }

  /** A statement checked against one epoch's roots for one class. */
  ghost predicate Against(w: World, p: ChainPublic, e: nat, k: Bytes32) {
    && e in w.g.past && k in w.g.past[e].leaves
    && e in w.s.history && k in w.s.history[e].classRoots
    && p.agora == w.s.agora
    && p.classRoot == w.s.history[e].classRoots[k]
    && p.revocationRoot == w.s.history[e].revocation
    && p.spendRoot == w.s.history[e].spend
  }

  lemma StatementSound(c: Scheme, w: World, e: nat, k: Bytes32, x: ChainWitness, p: ChainPublic, q: set<seq<F>>)
    requires Primitives(c) && Sound(c, w) && Against(w, p, e, k) && ChainType(c, x) && ChainHolds(c, x, p)
    requires ChainQueries(c, x, w.s.agora, w.g.past[e].leaves[k], w.g.past[e].revoked, w.g.past[e].spent) <= q
    requires CollisionFree(c, q)
    ensures OpenedLeaf(c, x, w.s.agora).Some?
    ensures OrderOf(SpendNullifier(c, x.credentialKey, OpenedLeaf(c, x, w.s.agora).value, w.s.agora)) !in w.g.past[e].spent
  {
    hide Sound, ChainQueries, CollisionFree, OrderOf, SpendNullifier, RevocationKey, TreeRoot, SetRoot;
    PastRoots(c, w, e);
    PastDomains(c, w, e);
    var t := w.g.past[e];
    assert RootsOf(c, t).classRoots[k] == TreeRoot(c, t.leaves[k]);
    ChainSound(c, x, p, t.leaves[k], t.revoked, t.spent, q);
  }

  lemma ChainOpeningIsQueried(c: Scheme, x: ChainWitness, agora: Bytes32, leaves: seq<Bytes32>, revoked: set<nat>,
                              spent: set<nat>, q: set<seq<F>>)
    requires OpenedLeaf(c, x, agora).Some? && ChainQueries(c, x, agora, leaves, revoked, spent) <= q
    ensures OpeningPreimage(c, x.rootPublicKey, x.credentialKey, x.rootOpening, agora) in q
  {
    hide WitnessQueries, AbsenceQueries;
    assert OpeningPreimage(c, x.rootPublicKey, x.credentialKey, x.rootOpening, agora)
        in ChainQueries(c, x, agora, leaves, revoked, spent);
  }

  lemma SpendIsRecorded(c: Scheme, w: World, i: nat, e: nat)
    requires Sound(c, w) && i < |w.g.receipts| && w.g.receipts[i].origin.Migrated?
    requires e in w.g.past && e >= w.g.receipts[i].admission.activeFrom
    ensures OrderOf(w.g.receipts[i].origin.spend) in w.g.past[e].spent
  {
    hide Core, Covered, Growing, NotYet;
    CoveredNow(c, w.g.genesis, w.g.past, w.s);
    ReceiptHonoured(w, i);
    GrewFrom(w.g.past, w.g.receipts[i].admission.activeFrom, e);
  }

  /** A consumed leaf satisfies no chain statement against any epoch's roots from the boundary
      that landed its spend on, whatever the class and whatever the witness. */
  lemma ConsumedLeafIsDead(c: Scheme, w: World, i: nat, e: nat, k: Bytes32, x: ChainWitness, p: ChainPublic, q: set<seq<F>>)
    requires Primitives(c) && Reachable(c, w) && i < |w.g.receipts| && w.g.receipts[i].origin.Migrated?
    requires Against(w, p, e, k) && e >= w.g.receipts[i].admission.activeFrom && ChainType(c, x)
    requires ConsentQueries(c, w, w.g.receipts[i]) <= q && CollisionFree(c, q)
    requires ChainQueries(c, x, w.s.agora, w.g.past[e].leaves[k], w.g.past[e].revoked, w.g.past[e].spent) <= q
    ensures ConsumedLeaf(c, w, w.g.receipts[i]).Some?
    ensures ChainHolds(c, x, p) ==>
              && OpenedLeaf(c, x, w.s.agora).Some?
              && Value(OpenedLeaf(c, x, w.s.agora).value) != Value(ConsumedLeaf(c, w, w.g.receipts[i]).value)
  {
    hide Reachable, ConsentQueries, CollisionFree, Sound, ChainHolds, ChainType, ChainQueries, OpeningPreimage, SpendNullifier,
      OrderOf, OldLeaf, OpenedLeaf;
    ReachableIsSound(c, w);
    var r := w.g.receipts[i];
    MigrationConsumes(c, w, i, q);
    ReceiptConsented(c, w, i);
    if ChainHolds(c, x, p) {
      StatementSound(c, w, e, k, x, p, q);
      SpendIsRecorded(c, w, i, e);
      ChainOpeningIsQueried(c, x, w.s.agora, w.g.past[e].leaves[k], w.g.past[e].revoked, w.g.past[e].spent, q);
      OldOpeningIsQueried(c, w, r, q);
      if Value(OpenedLeaf(c, x, w.s.agora).value) == Value(ConsumedLeaf(c, w, r).value) {
        SameOpenedSpend(c, r.origin.consent, x, w.s.agora, q);
      }
    }
  }

  lemma SameOpenedSpend(c: Scheme, m: MigrationWitness, x: ChainWitness, agora: Bytes32, q: set<seq<F>>)
    requires Primitives(c) && CollisionFree(c, q)
    requires OldLeaf(c, m, agora).Some? && OpenedLeaf(c, x, agora).Some?
    requires OpeningPreimage(c, m.oldRootPublicKey, m.credentialKey, m.oldRootOpening, agora) in q
    requires OpeningPreimage(c, x.rootPublicKey, x.credentialKey, x.rootOpening, agora) in q
    requires Value(OldLeaf(c, m, agora).value) == Value(OpenedLeaf(c, x, agora).value)
    ensures SpendNullifier(c, m.credentialKey, OldLeaf(c, m, agora).value, agora)
         == SpendNullifier(c, x.credentialKey, OpenedLeaf(c, x, agora).value, agora)
  {
    OneLeafOneKey(c, m.oldRootPublicKey, m.credentialKey, m.oldRootOpening,
                  x.rootPublicKey, x.credentialKey, x.rootOpening, agora, q);
    SpendOfValues(c, m.credentialKey, OldLeaf(c, m, agora).value, x.credentialKey, OpenedLeaf(c, x, agora).value, agora);
  }

  // ---- Conservation ----

  /** The positions of a class its accepted migrations consumed. */
  function ConsumedPositions(w: World, k: Bytes32): map<nat, nat> {
    map i | i in MigratedIn(w.g.receipts, k) :: w.g.receipts[i].origin.consent.oldLeafWitness.index
  }

  ghost predicate AllHashed(c: Scheme, w: World, k: Bytes32, q: set<seq<F>>) {
    forall i :: i in MigratedIn(w.g.receipts, k) ==> ConsentQueries(c, w, w.g.receipts[i]) <= q
  }

  lemma ConsumedPositionsDiffer(c: Scheme, w: World, k: Bytes32, i: nat, j: nat, q: set<seq<F>>)
    requires Primitives(c) && Reachable(c, w) && AllHashed(c, w, k, q) && CollisionFree(c, q)
    requires i in MigratedIn(w.g.receipts, k) && j in MigratedIn(w.g.receipts, k) && i < j
    ensures w.g.receipts[i].origin.consent.oldLeafWitness.index != w.g.receipts[j].origin.consent.oldLeafWitness.index
  {
    hide Reachable, ConsentQueries, CollisionFree, Sound, ConsumedLeaf;
    ReachableIsSound(c, w);
    MigrationsConsumeDistinctLeaves(c, w, i, j, q);
    MigrationConsumes(c, w, i, q);
    MigrationConsumes(c, w, j, q);
  }

  lemma ConsumptionCounts(c: Scheme, w: World, k: Bytes32, q: set<seq<F>>)
    requires Primitives(c) && Reachable(c, w) && AllHashed(c, w, k, q) && CollisionFree(c, q)
    ensures |ConsumedPositions(w, k).Values| == |MigratedIn(w.g.receipts, k)|
  {
    hide Reachable, AllHashed, CollisionFree, MigratedIn;
    var m := ConsumedPositions(w, k);
    forall i, j | i in m && j in m && i != j ensures m[i] != m[j] {
      if i < j {
        ConsumedPositionsDiffer(c, w, k, i, j, q);
      } else {
        ConsumedPositionsDiffer(c, w, k, j, i, q);
      }
    }
    InjectiveValues(m);
    assert m.Keys == MigratedIn(w.g.receipts, k);
  }

  /** Membership is conserved: in each class, leaves landed and not consumed never exceed the
      founder's plus the admissions vouched for; and while the agora lives, landed plus staged
      minus consumed is exactly that many. */
  lemma MembershipConserved(c: Scheme, w: World, k: Bytes32, q: set<seq<F>>)
    requires Primitives(c) && Reachable(c, w) && k in w.s.classes && AllHashed(c, w, k, q) && CollisionFree(c, q)
    ensures var members := Founders(w.g, k) + |VouchedIn(w.g.receipts, k)|;
            && w.s.classes[k].occupied - |ConsumedPositions(w, k).Values| <= members
            && (Live(w.s) ==>
                  w.s.classes[k].occupied + StagedIn(w.s.staged.admissions, k) - |ConsumedPositions(w, k).Values| == members)
  {
    hide Reachable, AllHashed, CollisionFree, MigratedIn, VouchedIn, Core, Covered, Growing, ConsumedPositions, StagedIn;
    ReachableIsSound(c, w);
    ConsumptionCounts(c, w, k, q);
    ClassCounted(w, k);
    GivenSplits(w.g.receipts, k);
    ArrivedWithin(w.g.receipts, k, w.s.epoch);
  }
}
