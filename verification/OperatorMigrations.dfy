/** Accepted migrations keep their evidence, no spend is accepted twice, and the number of leaves
    in a class is the number of receipts given for it. */
module OperatorMigrations {
  import opened Wrappers
  import opened Bytes
  import opened Crypto
  import opened BatchTree
  import opened Exclusion
  import opened Statements
  import opened Decisions
  import opened Operator
  import opened OperatorLayout
  import opened OperatorRuns
  import opened OperatorReceipts

  // ---- Evidence ----

  /** What a migration's consent was checked against: the trees of the epoch it was staged in. */
  function ConsentPublic(c: Scheme, agora: Bytes32, t: Trees, r: Receipt): MigrationPublic
    requires r.origin.Migrated? && r.class_ in t.leaves
  {
    MigrationPublic(agora, TreeRoot(c, t.leaves[r.class_]), SetRoot(c, t.revoked), r.origin.spend, r.leaf)
  }

  ghost predicate Consented(c: Scheme, agora: Bytes32, t: Trees, r: Receipt)
    requires r.origin.Migrated?
  {
    && r.class_ in t.leaves
    && MigrationType(c, r.origin.consent)
    && MigrationHolds(c, r.origin.consent, ConsentPublic(c, agora, t, r))
  }

  /** Given in an epoch whose trees the consent holds against and whose set lacks the spend. */
  ghost predicate Evidenced(c: Scheme, agora: Bytes32, past: map<nat, Trees>, r: Receipt) {
    r.origin.Migrated? ==>
      && r.admission.activeFrom - 1 in past
      && Consented(c, agora, past[r.admission.activeFrom - 1], r)
      && OrderOf(r.origin.spend) !in past[r.admission.activeFrom - 1].spent
  }

  ghost function Unevidenced(c: Scheme, w: World): set<nat> {
    set i | 0 <= i < |w.g.receipts| && !Evidenced(c, w.s.agora, w.g.past, w.g.receipts[i])
  }

  ghost predicate EvidenceOk(c: Scheme, w: World) {
    Unevidenced(c, w) == {}
  }

  lemma ReceiptEvidenced(c: Scheme, w: World, i: nat)
    requires EvidenceOk(c, w) && i < |w.g.receipts|
    ensures Evidenced(c, w.s.agora, w.g.past, w.g.receipts[i])
  {
    assert i !in Unevidenced(c, w);
  }

  lemma MigrateConsents(c: Scheme, w: World, k: Bytes32, proof: StubProof<MigrationWitness>,
                        spend: Bytes32, successor: Bytes32, inbox: Bytes32, r: Receipt)
    requires Covered(c, w.g.genesis, w.g.past, GroundOf(w.s))
    requires Migrate(c, w.s, k, proof, spend, successor, inbox).1.Ok?
    requires r.class_ == k && r.leaf == successor && r.origin == Migrated(proof.material, spend)
    ensures Consented(c, w.s.agora, TreesOf(w.s), r)
  {
    hide MigrationHolds, MigrationType, MigrationBinding, StageAdmission, Covered;
    RootsNow(c, w.g.genesis, w.g.past, w.s, k);
  }

  /** What issuing a receipt says of where it came from. */
  lemma StepConsents(c: Scheme, w: World, step: Step, r: Receipt)
    requires Covered(c, w.g.genesis, w.g.past, GroundOf(w.s)) && r.origin.Migrated?
    requires Issued(w.s, step, Apply(c, w.s, step).1) == [r]
    ensures Consented(c, w.s.agora, TreesOf(w.s), r)
    ensures OrderOf(r.origin.spend) !in w.s.spends && r.origin.spend !in w.s.staged.spends && !w.s.dissolved
  {
    hide Migrate, VouchFinalize, Covered, Consented;
    assert step.Migrating?;
    MigrateConsents(c, w, step.class_, step.consent, step.spend, step.successor, step.inbox, r);
    MigrateIsFresh(c, w.s, step.class_, step.consent, step.spend, step.successor, step.inbox);
  }

  lemma MigrateIsFresh(c: Scheme, s: State, k: Bytes32, proof: StubProof<MigrationWitness>,
                       spend: Bytes32, successor: Bytes32, inbox: Bytes32)
    requires Migrate(c, s, k, proof, spend, successor, inbox).1.Ok?
    ensures OrderOf(spend) !in s.spends && spend !in s.staged.spends && !s.dissolved
  {
    hide VerifyMigration, StageAdmission, RootsIn;
  }

  lemma EvidenceStays(c: Scheme, agora: Bytes32, past: map<nat, Trees>, past': map<nat, Trees>, r: Receipt)
    requires Evidenced(c, agora, past, r) && (forall e :: e in past ==> e in past' && past'[e] == past[e])
    ensures Evidenced(c, agora, past', r)
  {
    hide Consented;
  }

  lemma PastStays(c: Scheme, w: World, step: Step)
    requires Primitives(c) && Core(c, w.s) && Covered(c, w.g.genesis, w.g.past, GroundOf(w.s))
    ensures forall e :: e in w.g.past ==> e in Next(c, w, step).g.past && Next(c, w, step).g.past[e] == w.g.past[e]
    ensures Next(c, w, step).s.agora == w.s.agora
  {
    hide Apply, Core, Covered, GroundOf, Boundary, Crossing, Next;
    NextFields(c, w, step);
    PastOfNext(c, w, step);
    CoveredNow(c, w.g.genesis, w.g.past, w.s);
    if Crossing(w.s, step).Some? {
      CrossingIsBoundary(c, w.s, step);
      GroundParts(w.s, Crossing(w.s, step).value);
      BoundaryFields(c, Crossing(w.s, step).value);
    } else {
      StepKeepsGround(c, w.s, step);
      GroundParts(w.s, Apply(c, w.s, step).0);
    }
  }

  lemma StepKeepsEvidence(c: Scheme, w: World, step: Step)
    requires Primitives(c) && Core(c, w.s) && Covered(c, w.g.genesis, w.g.past, GroundOf(w.s)) && EvidenceOk(c, w)
    ensures EvidenceOk(c, Next(c, w, step))
  {
    hide Apply, Core, Covered, GroundOf, Next, Consented, Issued, Promised;
    var w' := Next(c, w, step);
    NextFields(c, w, step);
    PastStays(c, w, step);
    AtMostOneReceipt(w.s, step, Apply(c, w.s, step).1);
    forall i | 0 <= i < |w'.g.receipts| ensures Evidenced(c, w'.s.agora, w'.g.past, w'.g.receipts[i]) {
      var r := w'.g.receipts[i];
      if i < |w.g.receipts| {
        ReceiptEvidenced(c, w, i);
        EvidenceStays(c, w.s.agora, w.g.past, w'.g.past, r);
      } else if r.origin.Migrated? {
        StepIssues(c, w.s, step, r);
        PromisedDate(w.s, w'.s, r);
        CoveredNow(c, w.g.genesis, w.g.past, w.s);
        StepConsents(c, w, step, r);
      }
    }
  }

  lemma PromisedDate(s: State, s': State, r: Receipt)
    requires Promised(s, s', r)
    ensures r.admission.activeFrom - 1 == s.epoch
  {
  }

  // ---- No spend twice ----

  ghost predicate SpendsDistinct(receipts: seq<Receipt>) {
    forall i, j :: 0 <= i < j < |receipts| && receipts[i].origin.Migrated? && receipts[j].origin.Migrated?
      ==> receipts[i].origin.spend != receipts[j].origin.spend
  }

  /** The spend of an earlier migration is on record while the agora lives. */
  lemma SpendOnRecord(c: Scheme, w: World, r: Receipt)
    requires Honoured(w, r) && r.origin.Migrated? && !w.s.dissolved
    requires Covered(c, w.g.genesis, w.g.past, GroundOf(w.s)) && Growing(w.g.past)
    ensures OrderOf(r.origin.spend) in w.s.spends || r.origin.spend in w.s.staged.spends
  {
    hide Covered, GroundOf, Growing, NotYet;
    CoveredNow(c, w.g.genesis, w.g.past, w.s);
    if r.admission.activeFrom <= w.s.epoch {
      GrewFrom(w.g.past, r.admission.activeFrom, w.s.epoch);
    }
  }

  lemma StepKeepsSpends(c: Scheme, w: World, step: Step)
    requires Primitives(c) && Core(c, w.s) && Covered(c, w.g.genesis, w.g.past, GroundOf(w.s)) && Growing(w.g.past)
    requires ReceiptsOk(w) && SpendsDistinct(w.g.receipts)
    ensures SpendsDistinct(Next(c, w, step).g.receipts)
  {
    hide Apply, Core, Covered, GroundOf, Next, Consented, Issued, Growing, ReceiptsOk, Honoured;
    NextFields(c, w, step);
    AtMostOneReceipt(w.s, step, Apply(c, w.s, step).1);
    var more := Issued(w.s, step, Apply(c, w.s, step).1);
    if |more| == 1 && more[0].origin.Migrated? {
      StepConsents(c, w, step, more[0]);
      forall i | 0 <= i < |w.g.receipts| && w.g.receipts[i].origin.Migrated?
        ensures w.g.receipts[i].origin.spend != more[0].origin.spend
      {
        ReceiptHonoured(w, i);
        SpendOnRecord(c, w, w.g.receipts[i]);
      }
    }
  }

  // ---- Membership is counted ----

  function Given(receipts: seq<Receipt>, k: Bytes32): set<nat> {
    set i | 0 <= i < |receipts| && receipts[i].class_ == k
  }

  function MigratedIn(receipts: seq<Receipt>, k: Bytes32): set<nat> {
    set i | 0 <= i < |receipts| && receipts[i].class_ == k && receipts[i].origin.Migrated?
  }

  function VouchedIn(receipts: seq<Receipt>, k: Bytes32): set<nat> {
    set i | 0 <= i < |receipts| && receipts[i].class_ == k && receipts[i].origin.Vouched?
  }

  lemma GivenSplits(receipts: seq<Receipt>, k: Bytes32)
    ensures |Given(receipts, k)| == |MigratedIn(receipts, k)| + |VouchedIn(receipts, k)|
  {
    assert Given(receipts, k) == MigratedIn(receipts, k) + VouchedIn(receipts, k);
    assert MigratedIn(receipts, k) * VouchedIn(receipts, k) == {};
  }

  lemma GivenGrows(receipts: seq<Receipt>, r: Receipt, k: Bytes32)
    ensures |Given(receipts + [r], k)| == |Given(receipts, k)| + (if r.class_ == k then 1 else 0)
  {
    var n := |receipts|;
    if r.class_ == k {
      assert Given(receipts + [r], k) == Given(receipts, k) + {n};
    } else {
      assert Given(receipts + [r], k) == Given(receipts, k);
    }
  }

  function Founders(g: Ledger, k: Bytes32): nat {
    if k in g.founded then 1 else 0
  }

  /** The receipts for a class whose epoch has come. */
  function Arrived(receipts: seq<Receipt>, k: Bytes32, epoch: nat): set<nat> {
    set i | 0 <= i < |receipts| && receipts[i].class_ == k && receipts[i].admission.activeFrom <= epoch
  }

  lemma ArrivedWithin(receipts: seq<Receipt>, k: Bytes32, epoch: nat)
    ensures |Arrived(receipts, k, epoch)| <= |Given(receipts, k)|
  {
    SubsetSize(Arrived(receipts, k, epoch), Given(receipts, k));
  }

  lemma {:induction false} SubsetSize<T>(a: set<T>, b: set<T>)
    requires a <= b
    ensures |a| <= |b|
  {
    assert b == a + (b - a);
  }

  lemma LaterReceipt(receipts: seq<Receipt>, r: Receipt, k: Bytes32, epoch: nat)
    requires r.admission.activeFrom > epoch
    ensures Arrived(receipts + [r], k, epoch) == Arrived(receipts, k, epoch)
  {
  }

  /** A class holds exactly its founder and one leaf per receipt whose epoch has come; while the
      agora lives, it holds or has staged one per receipt. */
  ghost predicate Accounted(w: World, k: Bytes32)
    requires k in w.s.classes
  {
    && w.s.classes[k].occupied == Founders(w.g, k) + |Arrived(w.g.receipts, k, w.s.epoch)|
    && (Live(w.s) ==> w.s.classes[k].occupied + StagedIn(w.s.staged.admissions, k) == Founders(w.g, k) + |Given(w.g.receipts, k)|)
  }

  ghost function Miscounted(w: World): set<Bytes32> {
    set k | k in w.s.classes && !Accounted(w, k)
  }

  ghost predicate CountsOk(w: World) {
    Miscounted(w) == {}
  }

  lemma ClassCounted(w: World, k: Bytes32)
    requires CountsOk(w) && k in w.s.classes
    ensures Accounted(w, k)
  {
    assert k !in Miscounted(w);
  }

  /** Laid-out classes with the same leaves are as full. */
  lemma SameOccupancy(c: Scheme, s: State, s': State, k: Bytes32)
    requires Core(c, s) && Core(c, s') && GroundOf(s') == GroundOf(s) && k in s'.classes
    ensures k in s.classes && s'.classes[k].occupied == s.classes[k].occupied
  {
    hide Core;
    CoreLayout(c, s);
    CoreLayout(c, s');
    assert k in LeavesOf(s'.classes) && LeavesOf(s'.classes) == LeavesOf(s.classes);
    ClassIn(c, s.classes, k);
    ClassIn(c, s'.classes, k);
    assert s'.classes[k].leaves == LeavesOf(s'.classes)[k] == s.classes[k].leaves;
  }

  lemma CountCrosses(c: Scheme, s: State, k: Bytes32)
    requires Primitives(c) && Core(c, s) && k in Boundary(c, s).classes
    ensures k in s.classes
    ensures Boundary(c, s).classes[k].occupied == s.classes[k].occupied + StagedIn(s.staged.admissions, k)
    ensures StagedIn(Boundary(c, s).staged.admissions, k) == 0
  {
    hide Boundary, LandedAll, Core;
    BoundaryFields(c, s);
    AllLands(c, s);
    LandedGrows(c, s, k);
  }

  lemma CountWithin(c: Scheme, w: World, w': World, k: Bytes32, more: seq<Receipt>)
    requires Core(c, w.s) && Core(c, w'.s) && GroundOf(w'.s) == GroundOf(w.s) && k in w'.s.classes && k in w.s.classes
    requires Accounted(w, k) && w'.g.founded == w.g.founded && w'.g.receipts == w.g.receipts + more
    requires StagesMore(w.s, w'.s)
    requires if more == [] then StagesNothing(w.s, w'.s) else |more| == 1 && Promised(w.s, w'.s, more[0])
    ensures Accounted(w', k)
  {
    hide Core, GroundOf, Given, Arrived;
    SameOccupancy(c, w.s, w'.s, k);
    GroundParts(w.s, w'.s);
    if more == [] {
      assert w'.g.receipts == w.g.receipts;
    } else {
      assert w'.g.receipts == w.g.receipts + [more[0]];
      GivenGrows(w.g.receipts, more[0], k);
      LaterReceipt(w.g.receipts, more[0], k, w.s.epoch);
      StagedAppend(w.s.staged.admissions, (more[0].class_, more[0].leaf), k);
    }
  }

  lemma StepKeepsCounts(c: Scheme, w: World, step: Step)
    requires Primitives(c) && Core(c, w.s) && CountsOk(w) && ReceiptsOk(w)
    ensures CountsOk(Next(c, w, step))
  {
    hide Apply, Core, GroundOf, Next, Issued, Accounted, Crossing, Promised, StagesMore, StagesNothing, ReceiptsOk;
    var w' := Next(c, w, step);
    NextFields(c, w, step);
    StepKeepsCore(c, w.s, step);
    if Crossing(w.s, step).Some? {
      CrossingIsBoundary(c, w.s, step);
      CrossingIssuesNothing(c, w.s, step);
      forall k | k in w'.s.classes ensures Accounted(w', k) {
        CountAcross(c, w, Crossing(w.s, step).value, step, w', k);
      }
    } else {
      StepKeepsGround(c, w.s, step);
      StepStagesMore(c, w.s, step);
      StepExplains(c, w.s, step);
      forall k | k in w'.s.classes ensures Accounted(w', k) {
        SameOccupancy(c, w.s, w'.s, k);
        ClassCounted(w, k);
        CountWithin(c, w, w', k, Issued(w.s, step, Apply(c, w.s, step).1));
      }
    }
  }

  /** A step either issues the receipt for what it stages, or stages nothing. */
  lemma StepExplains(c: Scheme, s: State, step: Step)
    requires Primitives(c) && Core(c, s) && Crossing(s, step).None?
    ensures var more := Issued(s, step, Apply(c, s, step).1);
            if more == [] then StagesNothing(s, Apply(c, s, step).0)
            else |more| == 1 && Promised(s, Apply(c, s, step).0, more[0])
  {
    hide Core, Crossing, StagesNothing, Promised;
    AtMostOneReceipt(s, step, Apply(c, s, step).1);
    var more := Issued(s, step, Apply(c, s, step).1);
    if more == [] {
      AdmissionsAreReceipts(c, s, step);
      StepStagesNothing(c, s, step);
    } else {
      StepIssues(c, s, step, more[0]);
    }
  }

  lemma AdmissionsAreReceipts(c: Scheme, s: State, step: Step)
    requires Issued(s, step, Apply(c, s, step).1) == []
    ensures step.Finalize? || step.Migrating? ==> Apply(c, s, step).1.Err?
  {
    hide Remaining, StagedIn, VerifyMigration, RootsIn;
  }

  /** By the next epoch every receipt given so far has arrived. */
  lemma AllArrive(w: World, k: Bytes32)
    requires ReceiptsOk(w)
    ensures Arrived(w.g.receipts, k, w.s.epoch + 1) == Given(w.g.receipts, k)
  {
    hide NotYet, LandedIn, Pending, ReceiptsOk;
    forall i | 0 <= i < |w.g.receipts| ensures w.g.receipts[i].admission.activeFrom <= w.s.epoch + 1 {
      ReceiptHonoured(w, i);
    }
  }

  lemma CountAcross(c: Scheme, w: World, pre: State, step: Step, w': World, k: Bytes32)
    requires Primitives(c) && Core(c, w.s) && CountsOk(w) && ReceiptsOk(w) && Crossing(w.s, step) == Some(pre)
    requires Core(c, pre) && GroundOf(pre) == GroundOf(w.s) && w'.s == Boundary(c, pre)
    requires w'.g.founded == w.g.founded && w'.g.receipts == w.g.receipts && k in w'.s.classes
    ensures Accounted(w', k)
  {
    hide Core, GroundOf, Boundary, StagedIn, Given, Arrived, CountsOk, ReceiptsOk, LandedAll;
    CountCrosses(c, pre, k);
    SameOccupancy(c, w.s, pre, k);
    ClassCounted(w, k);
    CrossingStages(c, w.s, step);
    GroundParts(w.s, pre);
    BoundaryFields(c, pre);
    AllArrive(w, k);
  }
}
