/** Quorum decisions and the identifiers approvals accumulate under. */
module Decisions {
  import opened Bytes
  import opened Crypto

  datatype Decision =
    | Policy(class_: Bytes32, threshold: nat, quorum: nat)
    | Revocation(leaf: Bytes32)
    | Dissolution
    | InboxHorizon(boundaries: nat)
  {
    function Kind(): Domain {
      match this
      case Policy(_, _, _) => ProposalPolicy
      case Revocation(_) => ProposalRevocation
      case Dissolution => ProposalDissolution
      case InboxHorizon(_) => ProposalHorizon
    }

    function Content(): seq<seq<byte>> {
      match this
      case Policy(class_, threshold, quorum) => [class_, ToLE(threshold, 4), ToLE(quorum, 4)]
      case Revocation(leaf) => [leaf]
      case Dissolution => []
      case InboxHorizon(boundaries) => [U64Bytes(boundaries)]
    }
  }

  function SubjectParts(agora: Bytes32, opened_: nat, approving: Bytes32, d: Decision, nonce: Bytes32): seq<seq<byte>> {
    [agora, U64Bytes(opened_), approving] + d.Content() + [nonce]
  }

  function SubjectId(c: Scheme, agora: Bytes32, opened_: nat, approving: Bytes32, d: Decision, nonce: Bytes32): Bytes32 {
    Digest(c, d.Kind(), SubjectParts(agora, opened_, approving, d, nonce))
  }
}

/** The operator's state and every transition of it, as functions of the state before. */
module Operator {
  import opened Wrappers
  import opened Bytes
  import opened Crypto
  import opened Merkle
  import opened BatchTree
  import opened Ascending
  import opened Exclusion
  import opened Statements
  import opened Decisions
  import opened Log

  /** The empty value a class places after every leaf. */
  const PAD: Bytes32 := ZERO32

  const DEFAULT_INBOX_HORIZON: nat := 365
  const MIN_INBOX_HORIZON: nat := 7

  datatype ClassPolicy = ClassPolicy(voucherClass: Bytes32, threshold: nat)

  datatype ClassState = ClassState(
    leaves: seq<Bytes32>, policy: ClassPolicy, version: nat, occupied: nat, positions: map<Bytes32, nat>)

  datatype Session = Session(candidate: Bytes32, target: Bytes32, nullifiers: set<Bytes32>)

  datatype Proposal = Proposal(
    decision: Decision, approving: Bytes32, raised: nat, nonce: Bytes32, approvals: set<Bytes32>)

  datatype Staged = Staged(admissions: seq<(Bytes32, Bytes32)>, spends: seq<Bytes32>, revocations: seq<Bytes32>)

  datatype Snapshot = Snapshot(classRoots: map<Bytes32, Bytes32>, revocation: Bytes32, spend: Bytes32)

  datatype InboxRecord = InboxRecord(key: Bytes32, since: nat)

  datatype State = State(
    agora: Bytes32,
    epoch: nat,
    quorum: nat,
    classes: map<Bytes32, ClassState>,
    revocations: set<nat>,
    spends: set<nat>,
    staged: Staged,
    pending: set<Bytes32>,
    sessions: map<Bytes32, Session>,
    proposals: map<Bytes32, Proposal>,
    challenges: set<Bytes32>,
    history: map<nat, Snapshot>,
    tagSecret: Bytes32,
    statementSeed: Bytes32,
    log: Option<LogState>,
    dissolved: bool,
    inboxes: map<Bytes32, InboxRecord>,
    stagedInboxes: map<Bytes32, Bytes32>,
    revokedLeaves: set<Bytes32>,
    horizon: nat)

  datatype EpochRoots = EpochRoots(class_: Bytes32, revocation: Bytes32, spend: Bytes32)

  datatype Admission = Admission(activeFrom: nat, position: nat)

  datatype Response =
    | Recorded
    | Opened(session: Bytes32)
    | Admitted(admission: Admission)
    | Raised(subject: Bytes32)
    | PolicyActivated(version: nat)
    | Revoked
    | Dissolved
    | HorizonSet(boundaries: nat)
    | Advanced
    | Challenged
    | Granted(epoch: nat)

  type Outcome = (State, Result<Response>)

  const NOTHING_STAGED := Staged([], [], [])

  // ---- Classes ----

  /** Leaves a class can ever hold: half its tree's slots. */
  function Capacity(c: Scheme): nat {
    if c.depth == 0 then 1 else Pow2(c.depth - 1)
  }

  function PositionOf(index: nat): nat {
    2 * index
  }

  /** Lands a leaf at the next position and pads its neighbour, if the tree has room. */
  function Land(c: Scheme, cs: ClassState, leaf: Bytes32): Option<ClassState> {
    if |cs.leaves| >= Pow2(c.depth) then None
    else
      var placed := cs.leaves + [leaf];
      Some(cs.(leaves := if |placed| >= Pow2(c.depth) then placed else placed + [PAD],
               occupied := cs.occupied + 1,
               positions := cs.positions[leaf := |cs.leaves|]))
  }

  /** The leaves staged for one class, in staging order. */
  function StagedFor(admissions: seq<(Bytes32, Bytes32)>, class_: Bytes32): seq<Bytes32> {
    if |admissions| == 0 then []
    else (if admissions[0].0 == class_ then [admissions[0].1] else []) + StagedFor(admissions[1..], class_)
  }

  function StagedIn(admissions: seq<(Bytes32, Bytes32)>, class_: Bytes32): nat {
    |StagedFor(admissions, class_)|
  }

  /** How many admissions a class can still stage. */
  function Remaining(c: Scheme, s: State, class_: Bytes32): int {
    if class_ !in s.classes then 0
    else Capacity(c) - s.classes[class_].occupied - StagedIn(s.staged.admissions, class_)
  }

  // ---- Roots ----

  function SnapshotOf(c: Scheme, classes: map<Bytes32, ClassState>, revocations: set<nat>, spends: set<nat>): Snapshot {
    Snapshot(map k | k in classes :: TreeRoot(c, classes[k].leaves), SetRoot(c, revocations), SetRoot(c, spends))
  }

  function RootsIn(s: State, epoch: nat, class_: Bytes32): Option<EpochRoots> {
    if epoch !in s.history || class_ !in s.history[epoch].classRoots then None
    else
      var h := s.history[epoch];
      Some(EpochRoots(h.classRoots[class_], h.revocation, h.spend))
  }

  /** Class identifiers in ascending byte order. */
  function Rank(id: Bytes32): nat {
    LE(Reversed(id))
  }

  function Reversed(b: Bytes32): Bytes32 {
    seq(32, i requires 0 <= i < 32 => b[31 - i])
  }

  function InOrder(ids: set<Bytes32>): seq<Bytes32> {
    var ranks := Sorted(set id | id in ids :: Rank(id));
    seq(|ranks|, i requires 0 <= i < |ranks| => Reversed(ToLE(ranks[i], 32)))
  }

  /** One log entry per class in order. */
  function LogClasses(c: Scheme, log: LogState, epoch: nat, ids: seq<Bytes32>, roots: map<Bytes32, Bytes32>): LogState {
    if |ids| == 0 then log
    else
      var before := LogClasses(c, log, epoch, ids[..|ids| - 1], roots);
      var id := ids[|ids| - 1];
      if id in roots then Appended(c, before, ClassRoot(epoch, id, roots[id])) else before
  }

  function LogSnapshot(c: Scheme, log: Option<LogState>, epoch: nat, snap: Snapshot): Option<LogState> {
    match log
    case None => None
    case Some(l) =>
      Some(Appended(c, LogClasses(c, l, epoch, InOrder(snap.classRoots.Keys), snap.classRoots),
                    ExclusionRoots(epoch, snap.revocation, snap.spend)))
  }

  /** Fixes the roots of the trees of now as what this epoch is checked against, an entry each in the log. */
  function Snapshotted(c: Scheme, s: State): State {
    var snap := SnapshotOf(c, s.classes, s.revocations, s.spends);
    s.(log := LogSnapshot(c, s.log, s.epoch, snap), history := s.history[s.epoch := snap])
  }

  // ---- Creation ----

  datatype Founding = Founding(
    agora: Bytes32, genesis: nat, founder: Bytes32, classes: seq<(Bytes32, ClassPolicy)>,
    founderClasses: seq<Bytes32>, founderInbox: Bytes32)

  function FoundClasses(classes: seq<(Bytes32, ClassPolicy)>): map<Bytes32, ClassState> {
    if |classes| == 0 then map[]
    else
      var last := classes[|classes| - 1];
      FoundClasses(classes[..|classes| - 1])[last.0 := ClassState([], last.1, 1, 0, map[])]
  }

  function LandFounder(c: Scheme, classes: map<Bytes32, ClassState>, founder: Bytes32, into: seq<Bytes32>):
    Option<map<Bytes32, ClassState>>
  {
    if |into| == 0 then Some(classes)
    else if into[0] !in classes then None
    else match Land(c, classes[into[0]], founder)
      case None => None
      case Some(cs) => LandFounder(c, classes[into[0] := cs], founder, into[1..])
  }

  predicate PolicyConsistent(classes: map<Bytes32, ClassState>, policies: seq<(Bytes32, ClassPolicy)>) {
    forall i :: 0 <= i < |policies| ==> policies[i].1.threshold != 0 && policies[i].1.voucherClass in classes
  }

  /** The agora with its founder landed, or a refusal of a founding that contradicts itself. */
  function Created(c: Scheme, f: Founding, tagSecret: Bytes32, statement: Bytes32, logSeed: Option<Bytes32>): Result<State> {
    if |f.classes| == 0 then Err(Malformed)
    else
      var classes := FoundClasses(f.classes);
      if !PolicyConsistent(classes, f.classes) then Err(Malformed)
      else match LandFounder(c, classes, f.founder, f.founderClasses)
        case None => Err(Malformed)
        case Some(landed) => Ok(Snapshotted(c, State(
          f.agora, f.genesis, 1, landed, {}, {}, NOTHING_STAGED, {}, map[], map[], {}, map[],
          tagSecret, MintSigningSecret(statement),
          if logSeed.None? then None else Some(LogState(MintSigningSecret(logSeed.value), [], [])),
          false, map[f.founder := InboxRecord(f.founderInbox, f.genesis)], map[], {}, DEFAULT_INBOX_HORIZON)))
  }

  // ---- Vouching ----

  function CredentialsInit(s: State, commitment: Bytes32, inbox: Bytes32): Outcome {
    if s.dissolved then (s, Err(Rejected))
    else (s.(pending := s.pending + {commitment}, stagedInboxes := s.stagedInboxes[commitment := inbox]), Ok(Recorded))
  }

  function StartVouch(c: Scheme, s: State, candidate: Bytes32, target: Bytes32, id: Bytes32): Outcome {
    if s.dissolved || candidate !in s.pending || target !in s.classes || candidate in s.classes[target].positions
       || Remaining(c, s, target) == 0
    then (s, Err(Rejected))
    else (s.(sessions := s.sessions[id := Session(candidate, target, {})]), Ok(Opened(id)))
  }

  function VouchPublic(s: State, roots: EpochRoots, session: Bytes32, nullifier: Bytes32): ChainPublic {
    ChainPublic(s.agora, s.epoch, roots.class_, roots.revocation, roots.spend, Vouch(session, nullifier))
  }

  function VouchAttest(c: Scheme, s: State, id: Bytes32, proof: StubProof<ChainWitness>, nullifier: Bytes32): Outcome {
    if s.dissolved || id !in s.sessions || s.sessions[id].target !in s.classes then (s, Err(Rejected))
    else
      var session := s.sessions[id];
      match RootsIn(s, s.epoch, s.classes[session.target].policy.voucherClass)
      case None => (s, Err(Rejected))
      case Some(roots) =>
        if !VerifyChain(c, proof, VouchPublic(s, roots, id, nullifier)) || nullifier in session.nullifiers
        then (s, Err(Rejected))
        else (s.(sessions := s.sessions[id := session.(nullifiers := session.nullifiers + {nullifier})]), Ok(Recorded))
  }

  /** Stages a leaf for the next boundary: room first, then at most once per class. */
  function StageAdmission(c: Scheme, s: State, class_: Bytes32, leaf: Bytes32): Outcome {
    if Remaining(c, s, class_) == 0 || class_ !in s.classes
       || leaf in s.classes[class_].positions || (class_, leaf) in s.staged.admissions
    then (s, Err(Rejected))
    else
      var position := PositionOf(s.classes[class_].occupied + StagedIn(s.staged.admissions, class_));
      var pushed := s.(staged := s.staged.(admissions := s.staged.admissions + [(class_, leaf)]));
      if s.epoch + 1 >= U64 then (pushed, Err(Rejected))
      else (pushed, Ok(Admitted(Admission(s.epoch + 1, position))))
  }

  function VouchFinalize(c: Scheme, s: State, id: Bytes32): Outcome {
    if s.dissolved || id !in s.sessions then (s, Err(Rejected))
    else
      var session := s.sessions[id];
      var closed := s.(sessions := s.sessions - {id});
      if session.target !in s.classes || |session.nullifiers| < s.classes[session.target].policy.threshold
      then (closed, Err(Rejected))
      else StageAdmission(c, closed.(pending := closed.pending - {session.candidate}), session.target, session.candidate)
  }

  // ---- Migration ----

  function MigrationPublicOf(s: State, roots: EpochRoots, spend: Bytes32, successor: Bytes32): MigrationPublic {
    MigrationPublic(s.agora, roots.class_, roots.revocation, spend, successor)
  }

  /** Verifies, then stages the successor before the spend, so a staging refusal refuses whole. */
  function Migrate(c: Scheme, s: State, class_: Bytes32, proof: StubProof<MigrationWitness>,
                   spend: Bytes32, successor: Bytes32, inbox: Bytes32): Outcome
  {
    if s.dissolved || OrderOf(spend) in s.spends || spend in s.staged.spends
       || class_ !in s.classes || successor in s.classes[class_].positions
    then (s, Err(Rejected))
    else match RootsIn(s, s.epoch, class_)
      case None => (s, Err(Rejected))
      case Some(roots) =>
        if !VerifyMigration(c, proof, MigrationPublicOf(s, roots, spend, successor)) then (s, Err(Rejected))
        else
          var (staged, outcome) := StageAdmission(c, s, class_, successor);
          if outcome.Err? then (staged, outcome)
          else (staged.(staged := staged.staged.(spends := staged.staged.spends + [spend]),
                        stagedInboxes := staged.stagedInboxes[successor := inbox]), outcome)
  }

  // ---- Quorum decisions ----

  function Propose(c: Scheme, s: State, d: Decision, approving: Bytes32, nonce: Bytes32): Outcome {
    if s.dissolved || approving !in s.classes || (d.Policy? && d.class_ !in s.classes) then (s, Err(Rejected))
    else if d.Policy? && (d.threshold == 0 || d.quorum == 0) then (s, Err(Malformed))
    else if d.InboxHorizon? && d.boundaries < MIN_INBOX_HORIZON then (s, Err(Malformed))
    else
      var subject := SubjectId(c, s.agora, s.epoch, approving, d, nonce);
      (s.(proposals := s.proposals[subject := Proposal(d, approving, s.epoch, nonce, {})]), Ok(Raised(subject)))
  }

  function ApprovalPublic(s: State, roots: EpochRoots, subject: Bytes32, nullifier: Bytes32): ChainPublic {
    ChainPublic(s.agora, s.epoch, roots.class_, roots.revocation, roots.spend, PolicyApproval(subject, nullifier))
  }

  function Approve(c: Scheme, s: State, subject: Bytes32, proof: StubProof<ChainWitness>, nullifier: Bytes32): Outcome {
    if s.dissolved || subject !in s.proposals then (s, Err(Rejected))
    else
      var p := s.proposals[subject];
      match RootsIn(s, s.epoch, p.approving)
      case None => (s, Err(Rejected))
      case Some(roots) =>
        if !VerifyChain(c, proof, ApprovalPublic(s, roots, subject, nullifier)) || nullifier in p.approvals
        then (s, Err(Rejected))
        else (s.(proposals := s.proposals[subject := p.(approvals := p.approvals + {nullifier})]), Ok(Recorded))
  }

  function Execute(c: Scheme, s: State, subject: Bytes32): Outcome {
    if s.dissolved || subject !in s.proposals || |s.proposals[subject].approvals| < s.quorum then (s, Err(Rejected))
    else
      var d := s.proposals[subject].decision;
      var consumed := s.(proposals := s.proposals - {subject});
      match d
      case Policy(_, _, _) => ActivatePolicy(c, consumed, d)
      case Revocation(leaf) =>
        var (after, outcome) :=
          AdvanceEpoch(c, consumed.(staged := consumed.staged.(revocations := consumed.staged.revocations + [leaf])));
        (after, if outcome.Ok? then Ok(Revoked) else outcome)
      case Dissolution => (Dissolve(c, consumed), Ok(Dissolved))
      case InboxHorizon(boundaries) => (consumed.(horizon := boundaries), Ok(HorizonSet(boundaries)))
  }

  function ActivatePolicy(c: Scheme, s: State, d: Decision): Outcome
    requires d.Policy?
  {
    if d.class_ !in s.classes then (s, Err(Rejected))
    else
      var cs := s.classes[d.class_];
      var changed := cs.(policy := cs.policy.(threshold := d.threshold), version := cs.version + 1);
      (s.(classes := s.classes[d.class_ := changed],
          quorum := d.quorum,
          log := if s.log.None? then None
                 else Some(Appended(c, s.log.value, PolicyChanged(s.epoch, d.class_, changed.version)))),
       Ok(PolicyActivated(changed.version)))
  }

  function Dissolve(c: Scheme, s: State): State {
    s.(dissolved := true, sessions := map[], proposals := map[], challenges := {}, staged := NOTHING_STAGED,
       pending := {}, tagSecret := ZERO32, statementSeed := ZERO32,
       log := if s.log.None? then None else Some(Appended(c, s.log.value, LogEntry.Frozen(s.epoch))))
  }

  // ---- The boundary ----

  /** What landing staged admissions touches, and whether every one landed. */
  datatype Landing = Landing(
    classes: map<Bytes32, ClassState>, inboxes: map<Bytes32, InboxRecord>, stagedInboxes: map<Bytes32, Bytes32>, ok: bool)

  function LandOne(c: Scheme, l: Landing, admission: (Bytes32, Bytes32), next: nat): Landing {
    var (class_, leaf) := admission;
    if class_ !in l.classes then l.(ok := false)
    else match Land(c, l.classes[class_], leaf)
      case None => l.(ok := false)
      case Some(cs) =>
        var landed := l.(classes := l.classes[class_ := cs]);
        if leaf in l.stagedInboxes
        then landed.(inboxes := l.inboxes[leaf := InboxRecord(l.stagedInboxes[leaf], next)],
                     stagedInboxes := l.stagedInboxes - {leaf})
        else landed
  }

  /** Lands the admissions in staging order, stopping at the first that cannot. */
  function LandAll(c: Scheme, l: Landing, admissions: seq<(Bytes32, Bytes32)>, next: nat): Landing
    decreases |admissions|
  {
    if |admissions| == 0 || !l.ok then l
    else LandAll(c, LandOne(c, l, admissions[0], next), admissions[1..], next)
  }

  function SpendKeys(spends: seq<Bytes32>): set<nat> {
    set i | 0 <= i < |spends| :: OrderOf(spends[i])
  }

  function RevocationKeys(c: Scheme, leaves: seq<Bytes32>): set<nat> {
    set i | 0 <= i < |leaves| :: OrderOf(RevocationKey(c, leaves[i]))
  }

  function Members<T>(s: seq<T>): set<T> {
    set x | x in s
  }

  function LandedAll(c: Scheme, s: State): Landing {
    LandAll(c, Landing(s.classes, s.inboxes, s.stagedInboxes, true), s.staged.admissions, s.epoch + 1)
  }

  /** The state with everything staged taken and what could land landed. */
  function AfterLanding(s: State, l: Landing): State {
    s.(staged := NOTHING_STAGED, classes := l.classes, inboxes := l.inboxes, stagedInboxes := l.stagedInboxes)
  }

  /** The exclusion sets take their staged entries, the epoch turns, and everything open
      expires. */
  function Turned(c: Scheme, s: State, staged: Staged): State {
    s.(spends := s.spends + SpendKeys(staged.spends),
       revocations := s.revocations + RevocationKeys(c, staged.revocations),
       revokedLeaves := s.revokedLeaves + Members(staged.revocations),
       epoch := s.epoch + 1,
       sessions := map[], proposals := map[], challenges := {})
  }

  function Boundary(c: Scheme, s: State): State {
    Snapshotted(c, Turned(c, AfterLanding(s, LandedAll(c, s)), s.staged))
  }

  function AdvanceEpoch(c: Scheme, s: State): Outcome {
    if s.dissolved then (s, Err(Rejected))
    else if s.epoch + 1 >= U64 then (s.(staged := NOTHING_STAGED), Err(Unavailable))
    else if !LandedAll(c, s).ok then (AfterLanding(s, LandedAll(c, s)), Err(Unavailable))
    else (Boundary(c, s), Ok(Advanced))
  }

  // ---- Inboxes ----

  predicate Landed(s: State, leaf: Bytes32) {
    exists k :: k in s.classes && leaf in s.classes[k].positions
  }

  function InboxCertificate(c: Scheme, s: State, leaf: Bytes32, inbox: Bytes32, action: InboxAction,
                            proof: StubProof<InboxWitness>): Outcome
  {
    if s.dissolved || !VerifyInbox(c, proof, InboxPublic(s.agora, leaf, inbox, action)) then (s, Err(Rejected))
    else match action
      case Retire =>
        if leaf !in s.inboxes || s.inboxes[leaf].key != inbox then (s, Err(Rejected))
        else (s.(inboxes := s.inboxes - {leaf}), Ok(Recorded))
      case Renew =>
        if !Landed(s, leaf) || leaf in s.revokedLeaves then (s, Err(Rejected))
        else (s.(inboxes := s.inboxes[leaf := InboxRecord(inbox, s.epoch)]), Ok(Recorded))
  }

  /** The leaf's delivery key, if its registration is live now. */
  function InboxLive(s: State, leaf: Bytes32): Option<Bytes32> {
    if leaf in s.revokedLeaves || leaf !in s.inboxes then None
    else
      var since := s.inboxes[leaf].since;
      var age := if s.epoch >= since then s.epoch - since else 0;
      if age < s.horizon then Some(s.inboxes[leaf].key) else None
  }

  // ---- Verification access ----

  function IssueChallenge(s: State, entropy: Bytes32): Outcome {
    if s.dissolved then (s, Err(Rejected)) else (s.(challenges := s.challenges + {entropy}), Ok(Challenged))
  }

  /** A challenge is consumed on presentation, whether or not the proof is good. */
  function RedeemAccess(c: Scheme, s: State, class_: Bytes32, proof: StubProof<ChainWitness>, challenge: Bytes32): Outcome {
    if s.dissolved || challenge !in s.challenges then (s, Err(Rejected))
    else
      var burned := s.(challenges := s.challenges - {challenge});
      match RootsIn(s, s.epoch, class_)
      case None => (burned, Err(Rejected))
      case Some(roots) =>
        if VerifyChain(c, proof, ChainPublic(s.agora, s.epoch, roots.class_, roots.revocation, roots.spend,
                                             VerificationAccess(challenge)))
        then (burned, Ok(Granted(s.epoch)))
        else (burned, Err(Rejected))
  }

  // ---- Steps ----

  datatype Step =
    | Init(commitment: Bytes32, inbox: Bytes32)
    | Start(candidate: Bytes32, target: Bytes32, id: Bytes32)
    | Attest(session: Bytes32, proof: StubProof<ChainWitness>, nullifier: Bytes32)
    | Finalize(session: Bytes32)
    | Migrating(class_: Bytes32, consent: StubProof<MigrationWitness>, spend: Bytes32, successor: Bytes32, inbox: Bytes32)
    | Proposing(decision: Decision, class_: Bytes32, nonce: Bytes32)
    | Approving(subject: Bytes32, proof: StubProof<ChainWitness>, nullifier: Bytes32)
    | Executing(subject: Bytes32)
    | Certifying(leaf: Bytes32, inbox: Bytes32, action: InboxAction, instruction: StubProof<InboxWitness>)
    | Advancing
    | Challenging(entropy: Bytes32)
    | Redeeming(class_: Bytes32, proof: StubProof<ChainWitness>, challenge: Bytes32)

  function Apply(c: Scheme, s: State, step: Step): Outcome {
    match step
    case Init(commitment, inbox) => CredentialsInit(s, commitment, inbox)
    case Start(candidate, target, id) => StartVouch(c, s, candidate, target, id)
    case Attest(session, proof, nullifier) => VouchAttest(c, s, session, proof, nullifier)
    case Finalize(session) => VouchFinalize(c, s, session)
    case Migrating(class_, proof, spend, successor, inbox) => Migrate(c, s, class_, proof, spend, successor, inbox)
    case Proposing(decision, class_, nonce) => Propose(c, s, decision, class_, nonce)
    case Approving(subject, proof, nullifier) => Approve(c, s, subject, proof, nullifier)
    case Executing(subject) => Execute(c, s, subject)
    case Certifying(leaf, inbox, action, proof) => InboxCertificate(c, s, leaf, inbox, action, proof)
    case Advancing => AdvanceEpoch(c, s)
    case Challenging(entropy) => IssueChallenge(s, entropy)
    case Redeeming(class_, proof, challenge) => RedeemAccess(c, s, class_, proof, challenge)
  }
}
