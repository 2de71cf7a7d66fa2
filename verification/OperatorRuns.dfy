/** Whole runs of the operator. A ghost ledger beside the state keeps what a state alone
    forgets: every epoch's trees, the evidence behind every counted nullifier, and a receipt for
    every admission promised. */
module OperatorRuns {
  import opened Wrappers
  import opened Bytes
  import opened Crypto
  import opened BatchTree
  import opened Exclusion
  import opened Statements
  import opened Decisions
  import opened Operator
  import opened OperatorLayout

  // ---- What the current epoch's statements are checked against ----

  datatype Trees = Trees(leaves: map<Bytes32, seq<Bytes32>>, revoked: set<nat>, spent: set<nat>)

  datatype Ground = Ground(
    agora: Bytes32, epoch: nat, trees: Trees, vouchers: map<Bytes32, Bytes32>, history: map<nat, Snapshot>)

  function LeavesOf(classes: map<Bytes32, ClassState>): map<Bytes32, seq<Bytes32>> {
    map k | k in classes :: classes[k].leaves
  }

  function VouchersOf(classes: map<Bytes32, ClassState>): map<Bytes32, Bytes32> {
    map k | k in classes :: classes[k].policy.voucherClass
  }

  function TreesOf(s: State): Trees {
    Trees(LeavesOf(s.classes), s.revocations, s.spends)
  }

  function GroundOf(s: State): Ground {
    Ground(s.agora, s.epoch, TreesOf(s), VouchersOf(s.classes), s.history)
  }

  function RootsOf(c: Scheme, t: Trees): Snapshot {
    Snapshot(map k | k in t.leaves :: TreeRoot(c, t.leaves[k]), SetRoot(c, t.revoked), SetRoot(c, t.spent))
  }

  // ---- Which steps cross a boundary ----

  /** The state a step lands the staged entries of, if it crosses a boundary. */
  function Crossing(s: State, step: Step): Option<State> {
    if !CanCross(s) then None
    else match step
      case Advancing => Some(s)
      case Executing(subject) =>
        if Executes(s, subject) && s.proposals[subject].decision.Revocation? then Some(Consumed(s, subject)) else None
      case _ => None
  }

  lemma CrossingIsBoundary(c: Scheme, s: State, step: Step)
    requires Primitives(c) && Core(c, s) && Crossing(s, step).Some?
    ensures Apply(c, s, step).0 == Boundary(c, Crossing(s, step).value)
    ensures Core(c, Crossing(s, step).value) && CanCross(Crossing(s, step).value)
    ensures GroundOf(Crossing(s, step).value) == GroundOf(s)
  {
    if step.Advancing? {
      AdvanceValue(c, s);
    } else {
      ConsumedKeeps(c, s, step.subject);
      ExecuteValue(c, s, step.subject);
      AdvanceValue(c, Consumed(s, step.subject));
    }
  }

  lemma ActivateKeepsGround(c: Scheme, s: State, d: Decision)
    requires d.Policy?
    ensures GroundOf(ActivatePolicy(c, s, d).0) == GroundOf(s)
  {
    var s' := ActivatePolicy(c, s, d).0;
    assert LeavesOf(s'.classes) == LeavesOf(s.classes);
    assert VouchersOf(s'.classes) == VouchersOf(s.classes);
  }

  lemma EffectKeepsGround(c: Scheme, s: State, d: Decision)
    requires Primitives(c) && Core(c, s) && (d.Revocation? ==> !CanCross(s))
    ensures GroundOf(Effect(c, s, d)) == GroundOf(s)
  {
    AdvanceValue(c, s);
    if d.Policy? {
      ActivateKeepsGround(c, s, d);
    }
  }

  lemma ExecuteKeepsGround(c: Scheme, s: State, subject: Bytes32)
    requires Primitives(c) && Core(c, s) && Crossing(s, Executing(subject)).None?
    ensures GroundOf(Execute(c, s, subject).0) == GroundOf(s)
  {
    if Executes(s, subject) {
      ConsumedKeeps(c, s, subject);
      ExecuteValue(c, s, subject);
      EffectKeepsGround(c, Consumed(s, subject), s.proposals[subject].decision);
    }
  }

  lemma VotingKeepsGround(c: Scheme, s: State, id: Bytes32, proof: StubProof<ChainWitness>, nullifier: Bytes32)
    ensures GroundOf(VouchAttest(c, s, id, proof, nullifier).0) == GroundOf(s)
    ensures GroundOf(Approve(c, s, id, proof, nullifier).0) == GroundOf(s)
  {
  }

  lemma FinalizeKeepsGround(c: Scheme, s: State, id: Bytes32)
    ensures GroundOf(VouchFinalize(c, s, id).0) == GroundOf(s)
  {
    hide VouchFinalize, LeavesOf, VouchersOf;
    FinalizeOnly(c, s, id);
  }

  lemma MigrateKeepsGround(c: Scheme, s: State, k: Bytes32, proof: StubProof<MigrationWitness>,
                           spend: Bytes32, successor: Bytes32, inbox: Bytes32)
    ensures GroundOf(Migrate(c, s, k, proof, spend, successor, inbox).0) == GroundOf(s)
  {
    hide Migrate, LeavesOf, VouchersOf;
    MigrateOnly(c, s, k, proof, spend, successor, inbox);
  }

  lemma OpeningKeepsGround(c: Scheme, s: State, a: Bytes32, b: Bytes32, id: Bytes32)
    ensures GroundOf(CredentialsInit(s, a, b).0) == GroundOf(s)
    ensures GroundOf(StartVouch(c, s, a, b, id).0) == GroundOf(s)
    ensures GroundOf(IssueChallenge(s, a).0) == GroundOf(s)
  {
  }

  lemma ProposeKeepsGround(c: Scheme, s: State, d: Decision, k: Bytes32, nonce: Bytes32)
    ensures GroundOf(Propose(c, s, d, k, nonce).0) == GroundOf(s)
  {
  }

  lemma CertifyingKeepsGround(c: Scheme, s: State, leaf: Bytes32, inbox: Bytes32, action: InboxAction,
                              proof: StubProof<InboxWitness>)
    ensures GroundOf(InboxCertificate(c, s, leaf, inbox, action, proof).0) == GroundOf(s)
  {
  }

  /** A step that crosses no boundary leaves every root and every tree as it was. */
  lemma StepKeepsGround(c: Scheme, s: State, step: Step)
    requires Primitives(c) && Core(c, s) && Crossing(s, step).None?
    ensures GroundOf(Apply(c, s, step).0) == GroundOf(s)
  {
    match step {
      case Init(commitment, inbox) => OpeningKeepsGround(c, s, commitment, inbox, ZERO32);
      case Start(candidate, target, id) => OpeningKeepsGround(c, s, candidate, target, id);
      case Attest(id, proof, nullifier) => VotingKeepsGround(c, s, id, proof, nullifier);
      case Approving(id, proof, nullifier) => VotingKeepsGround(c, s, id, proof, nullifier);
      case Finalize(id) => FinalizeKeepsGround(c, s, id);
      case Migrating(k, proof, spend, successor, inbox) => MigrateKeepsGround(c, s, k, proof, spend, successor, inbox);
      case Proposing(d, k, nonce) => ProposeKeepsGround(c, s, d, k, nonce);
      case Executing(subject) => ExecuteKeepsGround(c, s, subject);
      case Certifying(leaf, inbox, action, proof) => CertifyingKeepsGround(c, s, leaf, inbox, action, proof);
      case Advancing => AdvanceValue(c, s);
      case Challenging(entropy) => OpeningKeepsGround(c, s, entropy, entropy, entropy);
      case Redeeming(k, proof, challenge) => RedeemBurns(c, s, k, proof, challenge);
    }
  }

  // ---- The ledger ----

  /** Where an admitted leaf came from. */
  datatype Origin =
    | Vouched
    | Migrated(consent: MigrationWitness, spend: Bytes32)

  /** A promise the operator returned: this leaf lands there, then. `slot` is its place among
      the staged admissions until it does. */
  datatype Receipt = Receipt(class_: Bytes32, leaf: Bytes32, admission: Admission, slot: nat, origin: Origin)

  datatype Ledger = Ledger(
    genesis: nat, founded: set<Bytes32>, past: map<nat, Trees>,
    votes: map<(Bytes32, Bytes32), ChainWitness>, approvals: map<(Bytes32, Bytes32), ChainWitness>,
    receipts: seq<Receipt>)

  datatype World = World(s: State, g: Ledger)

  function PastAfter(past: map<nat, Trees>, s: State, step: Step, s': State): map<nat, Trees> {
    if Crossing(s, step).Some? then past[s'.epoch := TreesOf(s')] else past
  }

  function VotesAfter(votes: map<(Bytes32, Bytes32), ChainWitness>, step: Step, accepted: bool):
    map<(Bytes32, Bytes32), ChainWitness>
  {
    if step.Attest? && accepted then votes[(step.session, step.nullifier) := step.proof.material] else votes
  }

  function ApprovalsAfter(approvals: map<(Bytes32, Bytes32), ChainWitness>, step: Step, accepted: bool):
    map<(Bytes32, Bytes32), ChainWitness>
  {
    if step.Approving? && accepted then approvals[(step.subject, step.nullifier) := step.proof.material] else approvals
  }

  /** The receipt a step's answer is, if it is one. */
  function Issued(s: State, step: Step, answer: Result<Response>): seq<Receipt> {
    match answer
    case Ok(Admitted(admission)) =>
      (match step
       case Finalize(id) =>
         if id !in s.sessions then []
         else [Receipt(s.sessions[id].target, s.sessions[id].candidate, admission, |s.staged.admissions|, Vouched)]
       case Migrating(k, proof, spend, successor, _) =>
         [Receipt(k, successor, admission, |s.staged.admissions|, Migrated(proof.material, spend))]
       case _ => [])
    case _ => []
  }

  function Next(c: Scheme, w: World, step: Step): World {
    var (s', answer) := Apply(c, w.s, step);
    World(s', Ledger(w.g.genesis, w.g.founded, PastAfter(w.g.past, w.s, step, s'),
                     VotesAfter(w.g.votes, step, answer.Ok?), ApprovalsAfter(w.g.approvals, step, answer.Ok?),
                     w.g.receipts + Issued(w.s, step, answer)))
  }

  // ---- Every epoch's roots are fixed ----

  /** Trees only grow: leaves are appended, exclusions only added. */
  ghost predicate Extends(t: Trees, u: Trees) {
    && t.leaves.Keys == u.leaves.Keys
    && (forall k :: k in t.leaves ==> t.leaves[k] <= u.leaves[k])
    && t.revoked <= u.revoked
    && t.spent <= u.spent
  }

  lemma ExtendsTransitive(t: Trees, u: Trees, v: Trees)
    requires Extends(t, u) && Extends(u, v)
    ensures Extends(t, v)
  {
  }

  /** The pairs of epochs whose later trees do not extend the earlier. */
  ghost function Rewrites(past: map<nat, Trees>): set<(nat, nat)> {
    set e, e' | e in past && e' in past && e <= e' && !Extends(past[e], past[e']) :: (e, e')
  }

  ghost predicate Growing(past: map<nat, Trees>) {
    Rewrites(past) == {}
  }

  lemma GrewFrom(past: map<nat, Trees>, e: nat, e': nat)
    requires Growing(past) && e in past && e' in past && e <= e'
    ensures Extends(past[e], past[e'])
  {
    assert (e, e') !in Rewrites(past);
  }

  function RootsThrough(c: Scheme, past: map<nat, Trees>): map<nat, Snapshot> {
    map e | e in past :: RootsOf(c, past[e])
  }

  /** History covers exactly genesis to now, each entry the roots of that epoch's trees and the
      current one those of the live trees. */
  ghost predicate Covered(c: Scheme, genesis: nat, past: map<nat, Trees>, d: Ground) {
    && genesis <= d.epoch
    && (forall e :: e in past <==> genesis <= e <= d.epoch)
    && d.history == RootsThrough(c, past)
    && past[d.epoch] == d.trees
  }

  lemma CoveredGrows(c: Scheme, genesis: nat, past: map<nat, Trees>, d: Ground, d': Ground)
    requires Covered(c, genesis, past, d)
    requires d'.epoch == d.epoch + 1 && d'.history == d.history[d'.epoch := RootsOf(c, d'.trees)]
    ensures Covered(c, genesis, past[d'.epoch := d'.trees], d')
  {
    hide RootsOf;
    var more := past[d'.epoch := d'.trees];
    assert RootsThrough(c, more) == RootsThrough(c, past)[d'.epoch := RootsOf(c, d'.trees)];
  }

  lemma GrowingGrows(past: map<nat, Trees>, now: nat, trees: Trees)
    requires Growing(past) && now in past && (forall e :: e in past ==> e <= now) && Extends(past[now], trees)
    ensures Growing(past[now + 1 := trees])
  {
    var more := past[now + 1 := trees];
    forall e, e' | e in more && e' in more && e <= e' ensures Extends(more[e], more[e']) {
      if e' <= now {
        GrewFrom(past, e, e');
      } else if e <= now {
        GrewFrom(past, e, now);
        ExtendsTransitive(past[e], past[now], trees);
      }
    }
  }

  /** Landing only appends. */
  lemma LandingExtends(c: Scheme, s: State)
    requires Primitives(c) && Core(c, s)
    ensures Extends(TreesOf(s), TreesOf(Boundary(c, s)))
  {
    hide Boundary, LandedAll, Core, ClassesOk;
    BoundaryFields(c, s);
    AllLands(c, s);
    forall k | k in s.classes ensures s.classes[k].leaves <= LandedAll(c, s).classes[k].leaves {
      LandedGrows(c, s, k);
    }
  }

  lemma SnapshotIsRoots(c: Scheme, s: State)
    ensures SnapshotOf(c, s.classes, s.revocations, s.spends) == RootsOf(c, TreesOf(s))
  {
    assert LeavesOf(s.classes).Keys == s.classes.Keys;
  }

  lemma SnapshottedHistory(c: Scheme, s: State)
    ensures Snapshotted(c, s).history == s.history[s.epoch := RootsOf(c, TreesOf(s))]
    ensures TreesOf(Snapshotted(c, s)) == TreesOf(s)
  {
    hide LogSnapshot, SnapshotOf, RootsOf;
    SnapshotIsRoots(c, s);
  }

  lemma BoundaryHistory(c: Scheme, s: State)
    ensures Boundary(c, s).history == s.history[s.epoch + 1 := RootsOf(c, TreesOf(Boundary(c, s)))]
  {
    hide Snapshotted, LandedAll, SpendKeys, RevocationKeys, TreesOf, RootsOf;
    SnapshottedHistory(c, Turned(c, AfterLanding(s, LandedAll(c, s)), s.staged));
  }

  /** What the ledger keeps of the past after this boundary. */
  function PastCrossed(c: Scheme, past: map<nat, Trees>, s: State): map<nat, Trees> {
    past[s.epoch + 1 := TreesOf(Boundary(c, s))]
  }

  lemma CoveredNow(c: Scheme, genesis: nat, past: map<nat, Trees>, s: State)
    requires Covered(c, genesis, past, GroundOf(s))
    ensures s.epoch in past && past[s.epoch] == TreesOf(s)
    ensures forall e :: e in past ==> e <= s.epoch
  {
    hide RootsOf, TreesOf, VouchersOf;
  }

  lemma CrossingKeepsGrowing(c: Scheme, genesis: nat, past: map<nat, Trees>, s: State)
    requires Primitives(c) && Core(c, s) && Growing(past) && Covered(c, genesis, past, GroundOf(s))
    ensures Growing(PastCrossed(c, past, s))
  {
    hide Growing, Extends, Boundary, Covered, TreesOf, Core;
    LandingExtends(c, s);
    CoveredNow(c, genesis, past, s);
    GrowingGrows(past, s.epoch, TreesOf(Boundary(c, s)));
  }

  lemma CrossingKeepsCovered(c: Scheme, genesis: nat, past: map<nat, Trees>, s: State)
    requires Covered(c, genesis, past, GroundOf(s))
    ensures Covered(c, genesis, PastCrossed(c, past, s), GroundOf(Boundary(c, s)))
  {
    hide Boundary, LeavesOf, VouchersOf, LandedAll, SpendKeys, RevocationKeys;
    BoundaryHistory(c, s);
    BoundaryFields(c, s);
    CoveredGrows(c, genesis, past, GroundOf(s), GroundOf(Boundary(c, s)));
  }

  lemma PastOfNext(c: Scheme, w: World, step: Step)
    requires Primitives(c) && Core(c, w.s)
    ensures Next(c, w, step).g.past ==
            match Crossing(w.s, step) case None => w.g.past case Some(pre) => PastCrossed(c, w.g.past, pre)
  {
    hide Apply, Boundary, Crossing, LandedAll, TreesOf;
    if Crossing(w.s, step).Some? {
      CrossingIsBoundary(c, w.s, step);
      BoundaryFields(c, Crossing(w.s, step).value);
    }
  }

  lemma StepKeepsCovered(c: Scheme, w: World, step: Step)
    requires Primitives(c) && Core(c, w.s) && Covered(c, w.g.genesis, w.g.past, GroundOf(w.s))
    ensures Covered(c, w.g.genesis, Next(c, w, step).g.past, GroundOf(Apply(c, w.s, step).0))
  {
    hide Apply, Boundary, Crossing, GroundOf, PastCrossed, Next;
    PastOfNext(c, w, step);
    if Crossing(w.s, step).Some? {
      CrossingIsBoundary(c, w.s, step);
      CrossingKeepsCovered(c, w.g.genesis, w.g.past, Crossing(w.s, step).value);
    } else {
      StepKeepsGround(c, w.s, step);
    }
  }

  lemma StepKeepsGrowing(c: Scheme, w: World, step: Step)
    requires Primitives(c) && Core(c, w.s) && Growing(w.g.past) && Covered(c, w.g.genesis, w.g.past, GroundOf(w.s))
    ensures Growing(Next(c, w, step).g.past)
  {
    hide Apply, Boundary, Crossing, GroundOf, PastCrossed, Next;
    PastOfNext(c, w, step);
    if Crossing(w.s, step).Some? {
      CrossingIsBoundary(c, w.s, step);
      CrossingKeepsGrowing(c, w.g.genesis, w.g.past, Crossing(w.s, step).value);
    }
  }

  /** The roots statements are checked against now are those of the live trees. */
  lemma RootsNow(c: Scheme, genesis: nat, past: map<nat, Trees>, s: State, k: Bytes32)
    requires Covered(c, genesis, past, GroundOf(s)) && RootsIn(s, s.epoch, k).Some?
    ensures k in s.classes
    ensures RootsIn(s, s.epoch, k)
         == Some(EpochRoots(TreeRoot(c, s.classes[k].leaves), SetRoot(c, s.revocations), SetRoot(c, s.spends)))
  {
    assert s.epoch in past && s.history[s.epoch] == RootsOf(c, TreesOf(s));
  }
}
