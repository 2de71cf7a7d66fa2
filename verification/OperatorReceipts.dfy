/** Every admission the operator promises lands exactly as promised, every accepted migration
    keeps its evidence, and membership is conserved. */
module OperatorReceipts {
  import opened Wrappers
  import opened Bytes
  import opened Crypto
  import opened BatchTree
  import opened Exclusion
  import opened Statements
  import opened Decisions
  import opened Operator
  import opened OperatorLayout
  import opened OperatorRuns

  // ---- What steps do to what is staged ----

  predicate Live(s: State) {
    !s.dissolved && s.epoch + 1 < U64
  }

  /** Between boundaries a live agora only stages more. */
  ghost predicate StagesMore(s: State, s': State) {
    && (s.dissolved ==> s'.dissolved)
    && (Live(s') ==>
          && s.staged.admissions <= s'.staged.admissions
          && s.staged.spends <= s'.staged.spends)
  }

  ghost predicate StagesNothing(s: State, s': State) {
    && (s.dissolved ==> s'.dissolved)
    && (Live(s') ==> StagedSame(s, s'))
  }

  ghost predicate StagedSame(s: State, s': State) {
    s.staged.admissions == s'.staged.admissions && s.staged.spends == s'.staged.spends
  }

  lemma EffectStagesNothing(c: Scheme, s: State, d: Decision)
    requires Primitives(c) && Core(c, s) && (d.Revocation? ==> !CanCross(s))
    ensures StagesNothing(s, Effect(c, s, d))
  {
    hide Core, Boundary, LandedAll;
    AdvanceValue(c, s);
  }

  lemma ExecuteStagesNothing(c: Scheme, s: State, subject: Bytes32)
    requires Primitives(c) && Core(c, s) && Crossing(s, Executing(subject)).None?
    ensures StagesNothing(s, Execute(c, s, subject).0)
  {
    hide Core, Boundary, LandedAll, Effect;
    if Executes(s, subject) {
      ConsumedKeeps(c, s, subject);
      ExecuteValue(c, s, subject);
      EffectStagesNothing(c, Consumed(s, subject), s.proposals[subject].decision);
    }
  }

  lemma FinalizeStagesMore(c: Scheme, s: State, id: Bytes32)
    ensures StagesMore(s, VouchFinalize(c, s, id).0)
    ensures VouchFinalize(c, s, id).1.Err? ==> StagesNothing(s, VouchFinalize(c, s, id).0)
  {
    hide Remaining, StagedIn;
  }

  lemma MigrateStagesMore(c: Scheme, s: State, k: Bytes32, proof: StubProof<MigrationWitness>,
                          spend: Bytes32, successor: Bytes32, inbox: Bytes32)
    ensures StagesMore(s, Migrate(c, s, k, proof, spend, successor, inbox).0)
    ensures Migrate(c, s, k, proof, spend, successor, inbox).1.Err? ==>
              StagesNothing(s, Migrate(c, s, k, proof, spend, successor, inbox).0)
  {
    hide VerifyMigration, RootsIn, Remaining, StagedIn;
  }

  lemma VotingStagesNothing(c: Scheme, s: State, id: Bytes32, proof: StubProof<ChainWitness>, n: Bytes32)
    ensures StagesNothing(s, VouchAttest(c, s, id, proof, n).0)
    ensures StagesNothing(s, Approve(c, s, id, proof, n).0)
  {
    hide VerifyChain, RootsIn;
  }

  lemma OpeningStagesNothing(c: Scheme, s: State, a: Bytes32, b: Bytes32, id: Bytes32, d: Decision)
    ensures StagesNothing(s, CredentialsInit(s, a, b).0)
    ensures StagesNothing(s, StartVouch(c, s, a, b, id).0)
    ensures StagesNothing(s, IssueChallenge(s, a).0)
    ensures StagesNothing(s, Propose(c, s, d, a, b).0)
  {
    hide Remaining;
  }

  lemma CertifyingStagesNothing(c: Scheme, s: State, leaf: Bytes32, inbox: Bytes32, action: InboxAction,
                                proof: StubProof<InboxWitness>)
    ensures StagesNothing(s, InboxCertificate(c, s, leaf, inbox, action, proof).0)
  {
    hide VerifyInbox, Landed;
  }

  lemma RedeemStagesNothing(c: Scheme, s: State, k: Bytes32, proof: StubProof<ChainWitness>, challenge: Bytes32)
    ensures StagesNothing(s, RedeemAccess(c, s, k, proof, challenge).0)
  {
    hide RedeemAccess;
    RedeemBurns(c, s, k, proof, challenge);
  }

  lemma AdvanceStagesNothing(c: Scheme, s: State)
    requires Primitives(c) && Core(c, s) && !CanCross(s)
    ensures StagesNothing(s, AdvanceEpoch(c, s).0)
  {
    hide Core, Boundary, LandedAll;
    AdvanceValue(c, s);
  }

  /** Only an accepted admission stages one. */
  lemma StepStagesNothing(c: Scheme, s: State, step: Step)
    requires Primitives(c) && Core(c, s) && Crossing(s, step).None?
    requires (step.Finalize? || step.Migrating?) ==> Apply(c, s, step).1.Err?
    ensures StagesNothing(s, Apply(c, s, step).0)
  {
    hide Core, StagesNothing, CredentialsInit, StartVouch, VouchFinalize, Migrate, Propose, Execute, InboxCertificate,
      AdvanceEpoch, IssueChallenge, RedeemAccess, VouchAttest, Approve;
    match step {
      case Init(commitment, inbox) => OpeningStagesNothing(c, s, commitment, inbox, ZERO32, Dissolution);
      case Start(candidate, target, id) => OpeningStagesNothing(c, s, candidate, target, id, Dissolution);
      case Attest(id, proof, n) => VotingStagesNothing(c, s, id, proof, n);
      case Approving(id, proof, n) => VotingStagesNothing(c, s, id, proof, n);
      case Finalize(id) => FinalizeStagesMore(c, s, id);
      case Migrating(k, proof, spend, successor, inbox) => MigrateStagesMore(c, s, k, proof, spend, successor, inbox);
      case Proposing(d, k, nonce) => OpeningStagesNothing(c, s, k, nonce, k, d);
      case Executing(subject) => ExecuteStagesNothing(c, s, subject);
      case Certifying(leaf, inbox, action, proof) => CertifyingStagesNothing(c, s, leaf, inbox, action, proof);
      case Advancing => AdvanceStagesNothing(c, s);
      case Challenging(entropy) => OpeningStagesNothing(c, s, entropy, entropy, entropy, Dissolution);
      case Redeeming(k, proof, challenge) => RedeemStagesNothing(c, s, k, proof, challenge);
    }
  }

  lemma StepStagesMore(c: Scheme, s: State, step: Step)
    requires Primitives(c) && Core(c, s) && Crossing(s, step).None?
    ensures StagesMore(s, Apply(c, s, step).0)
  {
    hide Core, VouchFinalize, Migrate;
    match step {
      case Finalize(id) => FinalizeStagesMore(c, s, id);
      case Migrating(k, proof, spend, successor, inbox) => MigrateStagesMore(c, s, k, proof, spend, successor, inbox);
      case _ =>
        hide Apply, Live;
        StepStagesNothing(c, s, step);
    }
  }

  // ---- Receipts ----

  /** The tree does not reach the promised position yet. */
  ghost predicate NotYet(t: Trees, r: Receipt) {
    r.class_ in t.leaves && |t.leaves[r.class_]| <= r.admission.position
  }

  /** The leaf is at the promised position, and what it cost is recorded. */
  ghost predicate LandedIn(t: Trees, r: Receipt) {
    && r.class_ in t.leaves
    && r.admission.position < |t.leaves[r.class_]|
    && t.leaves[r.class_][r.admission.position] == r.leaf
    && (r.origin.Migrated? ==> OrderOf(r.origin.spend) in t.spent)
  }

  /** The next boundary will land the leaf at the promised position. */
  ghost predicate Pending(t: Trees, staged: Staged, r: Receipt) {
    && r.class_ in t.leaves
    && r.slot < |staged.admissions|
    && staged.admissions[r.slot] == (r.class_, r.leaf)
    && r.admission.position == |t.leaves[r.class_]| + 2 * StagedIn(staged.admissions[..r.slot], r.class_)
    && (r.origin.Migrated? ==> r.origin.spend in staged.spends)
  }

  /** Given for the boundary after one of the epochs so far. */
  ghost predicate Dated(genesis: nat, epoch: nat, r: Receipt) {
    genesis < r.admission.activeFrom <= epoch + 1 && r.admission.activeFrom < U64
  }

  ghost predicate Honoured(w: World, r: Receipt) {
    && Dated(w.g.genesis, w.s.epoch, r)
    && r.admission.activeFrom - 1 in w.g.past
    && NotYet(w.g.past[r.admission.activeFrom - 1], r)
    && (if r.admission.activeFrom <= w.s.epoch
        then r.admission.activeFrom in w.g.past && LandedIn(w.g.past[r.admission.activeFrom], r)
        else w.s.dissolved || Pending(TreesOf(w.s), w.s.staged, r))
  }

  ghost function Dishonoured(w: World): set<nat> {
    set i | 0 <= i < |w.g.receipts| && !Honoured(w, w.g.receipts[i])
  }

  ghost predicate ReceiptsOk(w: World) {
    Dishonoured(w) == {}
  }

  lemma ReceiptHonoured(w: World, i: nat)
    requires ReceiptsOk(w) && i < |w.g.receipts|
    ensures Honoured(w, w.g.receipts[i])
  {
    assert i !in Dishonoured(w);
  }

  /** Between boundaries an old receipt stays honoured. */
  lemma HonouredWithin(w: World, w': World, r: Receipt)
    requires Honoured(w, r) && GroundOf(w'.s) == GroundOf(w.s) && w'.g.past == w.g.past && w'.g.genesis == w.g.genesis
    requires StagesMore(w.s, w'.s)
    ensures Honoured(w', r)
  {
    hide NotYet, LandedIn, LeavesOf, VouchersOf;
    if r.admission.activeFrom > w.s.epoch && !w'.s.dissolved {
      PendingWithin(TreesOf(w.s), w.s.staged, w'.s.staged, r);
    }
  }

  lemma PendingWithin(t: Trees, staged: Staged, staged': Staged, r: Receipt)
    requires Pending(t, staged, r) && staged.admissions <= staged'.admissions && staged.spends <= staged'.spends
    ensures Pending(t, staged', r)
  {
    assert staged'.admissions[..r.slot] == staged.admissions[..r.slot];
  }

  /** A boundary lands a pending receipt where it was promised. */
  lemma BoundaryLands(c: Scheme, s: State, r: Receipt)
    requires Primitives(c) && Core(c, s) && CanCross(s) && Pending(TreesOf(s), s.staged, r)
    ensures LandedIn(TreesOf(Boundary(c, s)), r)
  {
    hide Boundary, LandedAll, Core;
    LeafLands(c, s, r);
    BoundaryFields(c, s);
    if r.origin.Migrated? {
      SpendLands(s.staged.spends, r.origin.spend);
    }
  }

  lemma SpendLands(spends: seq<Bytes32>, spend: Bytes32)
    requires spend in spends
    ensures OrderOf(spend) in SpendKeys(spends)
  {
    var i :| 0 <= i < |spends| && spends[i] == spend;
    assert OrderOf(spends[i]) in SpendKeys(spends);
  }

  lemma GrownAt(before: ClassState, after: ClassState, adm: Admissions, slot: nat)
    requires slot < |adm| && GrewBy(before, after, StagedFor(adm, adm[slot].0))
    ensures var p := |before.leaves| + 2 * StagedIn(adm[..slot], adm[slot].0);
            p < |after.leaves| && after.leaves[p] == adm[slot].1
  {
    StagedAt(adm, slot);
    PaddedAt(StagedFor(adm, adm[slot].0), StagedIn(adm[..slot], adm[slot].0));
  }

  lemma LeafLands(c: Scheme, s: State, r: Receipt)
    requires Primitives(c) && Core(c, s) && Pending(TreesOf(s), s.staged, r)
    ensures r.class_ in LandedAll(c, s).classes
    ensures var leaves := LandedAll(c, s).classes[r.class_].leaves;
            r.admission.position < |leaves| && leaves[r.admission.position] == r.leaf
  {
    hide Core, LandedAll, GrewBy;
    LandedGrows(c, s, r.class_);
    GrownAt(s.classes[r.class_], LandedAll(c, s).classes[r.class_], s.staged.admissions, r.slot);
  }

  lemma HonouredAcross(c: Scheme, w: World, pre: State, w': World, r: Receipt)
    requires Primitives(c) && Honoured(w, r) && !w.s.dissolved
    requires Core(c, pre) && CanCross(pre) && GroundOf(pre) == GroundOf(w.s) && StagedSame(pre, w.s)
    requires w'.s == Boundary(c, pre) && w'.g.genesis == w.g.genesis
    requires w'.g.past == PastCrossed(c, w.g.past, pre)
    ensures Honoured(w', r)
  {
    hide Core, Boundary, LandedAll, LeavesOf, VouchersOf, LandedIn, NotYet;
    BoundaryFields(c, pre);
    if r.admission.activeFrom > w.s.epoch {
      BoundaryLands(c, pre, r);
    }
  }

  lemma CrossingStages(c: Scheme, s: State, step: Step)
    requires Crossing(s, step).Some?
    ensures StagedSame(Crossing(s, step).value, s) && !s.dissolved
  {
  }

  /** What an issued receipt says of the step that issued it. */
  ghost predicate Promised(s: State, s': State, r: Receipt) {
    && r.class_ in s.classes
    && s.epoch + 1 < U64
    && r.admission == Admission(s.epoch + 1, PositionOf(s.classes[r.class_].occupied + StagedIn(s.staged.admissions, r.class_)))
    && r.slot == |s.staged.admissions|
    && s'.staged.admissions == s.staged.admissions + [(r.class_, r.leaf)]
    && (r.origin.Migrated? ==> r.origin.spend in s'.staged.spends)
  }

  lemma FinalizeIssues(c: Scheme, s: State, id: Bytes32, admission: Admission)
    requires VouchFinalize(c, s, id).1 == Ok(Admitted(admission))
    ensures id in s.sessions
    ensures Promised(s, VouchFinalize(c, s, id).0,
                     Receipt(s.sessions[id].target, s.sessions[id].candidate, admission, |s.staged.admissions|, Vouched))
  {
    hide Remaining, StagedIn;
  }

  lemma MigrateIssues(c: Scheme, s: State, k: Bytes32, proof: StubProof<MigrationWitness>,
                      spend: Bytes32, successor: Bytes32, inbox: Bytes32, admission: Admission)
    requires Migrate(c, s, k, proof, spend, successor, inbox).1 == Ok(Admitted(admission))
    ensures Promised(s, Migrate(c, s, k, proof, spend, successor, inbox).0,
                     Receipt(k, successor, admission, |s.staged.admissions|, Migrated(proof.material, spend)))
  {
    hide Remaining, StagedIn, VerifyMigration, RootsIn;
  }

  lemma StepIssues(c: Scheme, s: State, step: Step, r: Receipt)
    requires Issued(s, step, Apply(c, s, step).1) == [r]
    ensures Promised(s, Apply(c, s, step).0, r)
  {
    hide VouchFinalize, Migrate, Promised;
    var admission := Apply(c, s, step).1.value.admission;
    if step.Finalize? {
      FinalizeIssues(c, s, step.session, admission);
    } else {
      MigrateIssues(c, s, step.class_, step.consent, step.spend, step.successor, step.inbox, admission);
    }
  }

  lemma AtMostOneReceipt(s: State, step: Step, answer: Result<Response>)
    ensures Issued(s, step, answer) == [] || exists r :: Issued(s, step, answer) == [r]
  {
  }

  lemma IssuedIsHonoured(c: Scheme, w: World, w': World, r: Receipt)
    requires Core(c, w.s) && Covered(c, w.g.genesis, w.g.past, GroundOf(w.s)) && Promised(w.s, w'.s, r)
    requires GroundOf(w'.s) == GroundOf(w.s) && w'.g.past == w.g.past && w'.g.genesis == w.g.genesis
    ensures Honoured(w', r)
  {
    hide Core, ClassesOk, StagedOk, RootsOf;
    CoveredNow(c, w.g.genesis, w.g.past, w.s);
    CoreLayout(c, w.s);
    ClassIn(c, w.s.classes, r.class_);
    assert w'.s.staged.admissions[..r.slot] == w.s.staged.admissions;
    assert w.s.classes[r.class_].leaves == TreesOf(w.s).leaves[r.class_];
  }

  lemma GroundParts(s: State, s': State)
    requires GroundOf(s') == GroundOf(s)
    ensures s'.epoch == s.epoch && s'.agora == s.agora && TreesOf(s') == TreesOf(s) && s'.history == s.history
  {
  }

  lemma NextFields(c: Scheme, w: World, step: Step)
    ensures var w' := Next(c, w, step);
            && w'.s == Apply(c, w.s, step).0
            && w'.g.genesis == w.g.genesis && w'.g.founded == w.g.founded
            && w'.g.receipts == w.g.receipts + Issued(w.s, step, Apply(c, w.s, step).1)
  {
    hide Apply, Issued;
  }

  lemma CrossingIssuesNothing(c: Scheme, s: State, step: Step)
    requires Crossing(s, step).Some?
    ensures Issued(s, step, Apply(c, s, step).1) == []
  {
    hide Apply;
  }

  lemma StepKeepsReceipts(c: Scheme, w: World, step: Step)
    requires Primitives(c) && Core(c, w.s) && Covered(c, w.g.genesis, w.g.past, GroundOf(w.s)) && ReceiptsOk(w)
    ensures ReceiptsOk(Next(c, w, step))
  {
    hide Apply, Next, Core, Covered, GroundOf, Honoured, Crossing, Issued, StagedSame, StagesMore, CanCross;
    NextFields(c, w, step);
    PastOfNext(c, w, step);
    var w' := Next(c, w, step);
    if Crossing(w.s, step).Some? {
      CrossingIsBoundary(c, w.s, step);
      CrossingStages(c, w.s, step);
      CrossingIssuesNothing(c, w.s, step);
      forall i | 0 <= i < |w'.g.receipts| ensures Honoured(w', w'.g.receipts[i]) {
        ReceiptHonoured(w, i);
        HonouredAcross(c, w, Crossing(w.s, step).value, w', w.g.receipts[i]);
      }
    } else {
      StepKeepsGround(c, w.s, step);
      StepStagesMore(c, w.s, step);
      AtMostOneReceipt(w.s, step, Apply(c, w.s, step).1);
      forall i | 0 <= i < |w'.g.receipts| ensures Honoured(w', w'.g.receipts[i]) {
        if i < |w.g.receipts| {
          ReceiptHonoured(w, i);
          HonouredWithin(w, w', w.g.receipts[i]);
        } else {
          StepIssues(c, w.s, step, w'.g.receipts[i]);
          IssuedIsHonoured(c, w, w', w'.g.receipts[i]);
        }
      }
    }
  }
}
