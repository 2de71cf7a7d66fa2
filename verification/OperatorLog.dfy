/** The operator's own log, kept through every step: a head per entry, epochs that never rewind,
    and a freeze exactly at dissolution. */
module OperatorLog {
  import opened Wrappers
  import opened Bytes
  import opened Crypto
  import opened Statements
  import opened Exclusion
  import opened Decisions
  import opened Operator
  import opened OperatorLayout
  import opened OperatorRuns
  import opened Log

  /** No entry is dated after now. */
  ghost predicate NoneAfter(entries: seq<LogEntry>, epoch: nat) {
    forall i :: 0 <= i < |entries| ==> entries[i].epoch <= epoch
  }

  predicate EndsFrozen(entries: seq<LogEntry>) {
    |entries| > 0 && entries[|entries| - 1].Frozen?
  }

  /** A well-kept log at this epoch. */
  ghost predicate WellKept(c: Scheme, log: LogState, epoch: nat, frozen: bool) {
    && Log.Kept(c, log)
    && Conforms(log.entries)
    && NoneAfter(log.entries, epoch)
    && EndsFrozen(log.entries) == frozen
    && PublicKey(c, log.seed).Some?
  }

  /** The log an agora opts into at creation, before its first snapshot. */
  function EmptyLog(logSeed: Option<Bytes32>): Option<LogState> {
    if logSeed.None? then None else Some(LogState(MintSigningSecret(logSeed.value), [], []))
  }

  /** The log is well kept, and the statement key signs. */
  ghost predicate LogOk(c: Scheme, s: State) {
    && (s.log.Some? ==> WellKept(c, s.log.value, s.epoch, s.dissolved))
    && PublicKey(c, s.statementSeed).Some?
  }

  lemma AppendsKept(c: Scheme, log: LogState, entry: LogEntry, epoch: nat)
    requires WellKept(c, log, epoch, false) && entry.epoch >= epoch
    ensures WellKept(c, Appended(c, log, entry), entry.epoch, entry.Frozen?)
    ensures Appended(c, log, entry).seed == log.seed
  {
    hide Log.Kept, Conforms;
    AppendKeeps(c, log, entry);
    AppendConforms(log.entries, entry);
  }

  lemma {:induction false} ClassesKept(c: Scheme, log: LogState, before: nat, epoch: nat, ids: seq<Bytes32>, roots: map<Bytes32, Bytes32>)
    requires WellKept(c, log, before, false) && before <= epoch
    ensures WellKept(c, LogClasses(c, log, epoch, ids, roots), epoch, false)
  {
    hide Log.Kept, Conforms;
    if |ids| > 0 {
      var init, id := ids[..|ids| - 1], ids[|ids| - 1];
      ClassesKept(c, log, before, epoch, init, roots);
      if id in roots {
        AppendsKept(c, LogClasses(c, log, epoch, init, roots), ClassRoot(epoch, id, roots[id]), epoch);
      }
    }
  }

  lemma SnapshotKept(c: Scheme, log: LogState, before: nat, epoch: nat, snap: Snapshot)
    requires WellKept(c, log, before, false) && before <= epoch
    ensures LogSnapshot(c, Some(log), epoch, snap).Some?
    ensures WellKept(c, LogSnapshot(c, Some(log), epoch, snap).value, epoch, false)
  {
    hide WellKept, LogClasses, InOrder, Appended;
    var ids := InOrder(snap.classRoots.Keys);
    ClassesKept(c, log, before, epoch, ids, snap.classRoots);
    AppendsKept(c, LogClasses(c, log, epoch, ids, snap.classRoots), ExclusionRoots(epoch, snap.revocation, snap.spend), epoch);
  }

  lemma BoundaryLog(c: Scheme, s: State)
    requires LogOk(c, s) && !s.dissolved
    ensures LogOk(c, Boundary(c, s))
  {
    hide WellKept, LandedAll, SnapshotOf, LogSnapshot, SpendKeys, RevocationKeys;
    var turned := Turned(c, AfterLanding(s, LandedAll(c, s)), s.staged);
    if s.log.Some? {
      SnapshotKept(c, s.log.value, s.epoch, s.epoch + 1, SnapshotOf(c, turned.classes, turned.revocations, turned.spends));
    } else {
      NoLog(c, s.epoch + 1, SnapshotOf(c, turned.classes, turned.revocations, turned.spends));
    }
  }

  lemma NoLog(c: Scheme, epoch: nat, snap: Snapshot)
    ensures LogSnapshot(c, None, epoch, snap) == None
  {
  }

  lemma ActivateLog(c: Scheme, s: State, d: Decision)
    requires LogOk(c, s) && !s.dissolved && d.Policy? && d.class_ in s.classes
    ensures LogOk(c, ActivatePolicy(c, s, d).0)
  {
    hide WellKept, Appended;
    if s.log.Some? {
      AppendsKept(c, s.log.value, PolicyChanged(s.epoch, d.class_, s.classes[d.class_].version + 1), s.epoch);
    }
  }

  lemma DissolveLog(c: Scheme, s: State)
    requires LogOk(c, s) && !s.dissolved
    ensures LogOk(c, Dissolve(c, s))
  {
    hide WellKept, Appended;
    LEZero();
    if s.log.Some? {
      AppendsKept(c, s.log.value, LogEntry.Frozen(s.epoch), s.epoch);
    }
  }

  lemma AdvanceLog(c: Scheme, s: State)
    requires Primitives(c) && Core(c, s) && LogOk(c, s)
    ensures LogOk(c, AdvanceEpoch(c, s).0)
  {
    hide WellKept, Boundary, Core, LandedAll;
    AdvanceValue(c, s);
    if CanCross(s) {
      BoundaryLog(c, s);
    }
  }

  lemma EffectLog(c: Scheme, s: State, d: Decision)
    requires Primitives(c) && Core(c, s) && LogOk(c, s) && !s.dissolved && DecisionOk(s.classes, d)
    ensures LogOk(c, Effect(c, s, d))
  {
    hide WellKept, AdvanceEpoch, ActivatePolicy, Dissolve, Core;
    match d {
      case Policy(_, _, _) => ActivateLog(c, s, d);
      case Revocation(_) => AdvanceLog(c, s);
      case Dissolution => DissolveLog(c, s);
      case InboxHorizon(_) =>
    }
  }

  lemma ExecuteLog(c: Scheme, s: State, subject: Bytes32)
    requires Primitives(c) && Core(c, s) && LogOk(c, s)
    ensures LogOk(c, Execute(c, s, subject).0)
  {
    hide WellKept, Core, Effect;
    if Executes(s, subject) {
      CoreGoverned(c, s);
      ConsumedKeeps(c, s, subject);
      ExecuteValue(c, s, subject);
      assert ProposalOk(s.classes, s.proposals[subject]);
      EffectLog(c, Consumed(s, subject), s.proposals[subject].decision);
    }
  }

  /** Same log, same keys, same epoch, same life. */
  ghost predicate LogUntouched(s: State, s': State) {
    s'.log == s.log && s'.epoch == s.epoch && s'.dissolved == s.dissolved && s'.statementSeed == s.statementSeed
  }

  lemma AdmittingLog(c: Scheme, s: State, id: Bytes32)
    ensures LogUntouched(s, VouchFinalize(c, s, id).0)
  {
    hide VouchFinalize;
    FinalizeOnly(c, s, id);
  }

  lemma MigrateLog(c: Scheme, s: State, k: Bytes32, proof: StubProof<MigrationWitness>,
                   spend: Bytes32, successor: Bytes32, inbox: Bytes32)
    ensures LogUntouched(s, Migrate(c, s, k, proof, spend, successor, inbox).0)
  {
    hide Migrate;
    MigrateOnly(c, s, k, proof, spend, successor, inbox);
  }

  lemma VotingLog(c: Scheme, s: State, id: Bytes32, proof: StubProof<ChainWitness>, n: Bytes32)
    ensures LogUntouched(s, VouchAttest(c, s, id, proof, n).0)
    ensures LogUntouched(s, Approve(c, s, id, proof, n).0)
    ensures LogUntouched(s, RedeemAccess(c, s, id, proof, n).0)
  {
    hide VerifyChain, RootsIn;
  }

  lemma OpeningLog(c: Scheme, s: State, a: Bytes32, b: Bytes32, id: Bytes32, d: Decision)
    ensures LogUntouched(s, CredentialsInit(s, a, b).0)
    ensures LogUntouched(s, StartVouch(c, s, a, b, id).0)
    ensures LogUntouched(s, IssueChallenge(s, a).0)
    ensures LogUntouched(s, Propose(c, s, d, a, b).0)
  {
    hide Remaining;
  }

  lemma CertifyingLog(c: Scheme, s: State, leaf: Bytes32, inbox: Bytes32, action: InboxAction, proof: StubProof<InboxWitness>)
    ensures LogUntouched(s, InboxCertificate(c, s, leaf, inbox, action, proof).0)
  {
    hide VerifyInbox, Landed;
  }

  lemma StepKeepsLog(c: Scheme, s: State, step: Step)
    requires Primitives(c) && Core(c, s) && LogOk(c, s)
    ensures LogOk(c, Apply(c, s, step).0)
  {
    hide Core, WellKept, CredentialsInit, StartVouch, VouchFinalize, Migrate, Propose, Execute, InboxCertificate,
      AdvanceEpoch, IssueChallenge, RedeemAccess, VouchAttest, Approve;
    match step {
      case Init(commitment, inbox) => OpeningLog(c, s, commitment, inbox, ZERO32, Dissolution);
      case Start(candidate, target, id) => OpeningLog(c, s, candidate, target, id, Dissolution);
      case Attest(id, proof, n) => VotingLog(c, s, id, proof, n);
      case Approving(id, proof, n) => VotingLog(c, s, id, proof, n);
      case Finalize(id) => AdmittingLog(c, s, id);
      case Migrating(k, proof, spend, successor, inbox) => MigrateLog(c, s, k, proof, spend, successor, inbox);
      case Proposing(d, k, nonce) => OpeningLog(c, s, k, nonce, k, d);
      case Executing(subject) => ExecuteLog(c, s, subject);
      case Certifying(leaf, inbox, action, proof) => CertifyingLog(c, s, leaf, inbox, action, proof);
      case Advancing => AdvanceLog(c, s);
      case Challenging(entropy) => OpeningLog(c, s, entropy, entropy, entropy, Dissolution);
      case Redeeming(k, proof, challenge) => VotingLog(c, s, k, proof, challenge);
    }
  }
}
