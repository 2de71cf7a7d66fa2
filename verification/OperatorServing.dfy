/** What the operator serves over every run: proposals a member can recompute, and inbox
    registrations that begin no later than now and last exactly the horizon. */
module OperatorServing {
  import opened Wrappers
  import opened Bytes
  import opened Crypto
  import opened Exclusion
  import opened Statements
  import opened Decisions
  import opened Operator
  import opened OperatorLayout
  import opened OperatorRuns
  import opened OperatorReceipts
  import opened OperatorSafety
  import opened Log

  /** A proposal is filed under the identifier a member recomputes from what is served of it,
      raised in the current epoch. */
  ghost predicate Bound(c: Scheme, s: State, subject: Bytes32, p: Proposal) {
    p.raised == s.epoch && subject == SubjectId(c, s.agora, p.raised, p.approving, p.decision, p.nonce)
  }

  ghost predicate Served(c: Scheme, s: State) {
    && (forall subject :: subject in s.proposals ==> Bound(c, s, subject, s.proposals[subject]))
    && (forall leaf :: leaf in s.inboxes ==> s.inboxes[leaf].since <= s.epoch)
  }

  predicate SameContent(p: Proposal, p': Proposal) {
    p'.decision == p.decision && p'.approving == p.approving && p'.raised == p.raised && p'.nonce == p.nonce
  }

  /** A step keeps what it served, or serves something properly bound and dated; nothing open
      survives an epoch. */
  ghost predicate Carries(c: Scheme, s: State, s': State) {
    && s'.agora == s.agora && s.epoch <= s'.epoch
    && (s'.epoch != s.epoch ==> s'.proposals == map[])
    && (forall subject :: subject in s'.proposals ==>
          || (subject in s.proposals && SameContent(s.proposals[subject], s'.proposals[subject]))
          || Bound(c, s', subject, s'.proposals[subject]))
    && (forall leaf :: leaf in s'.inboxes ==>
          (leaf in s.inboxes && s'.inboxes[leaf] == s.inboxes[leaf]) || s'.inboxes[leaf].since <= s'.epoch)
  }

  lemma CarriedIsServed(c: Scheme, s: State, s': State)
    requires Served(c, s) && Carries(c, s, s')
    ensures Served(c, s')
  {
    hide SubjectId;
  }

  /** Landing registers a leaf's inbox at the epoch it lands in. */
  lemma {:induction false} LandingRegisters(c: Scheme, l: Landing, adm: Admissions, next: nat)
    ensures forall leaf :: leaf in LandAll(c, l, adm, next).inboxes ==>
              || (leaf in l.inboxes && LandAll(c, l, adm, next).inboxes[leaf] == l.inboxes[leaf])
              || LandAll(c, l, adm, next).inboxes[leaf].since == next
    decreases |adm|
  {
    hide Land;
    if |adm| > 0 && l.ok {
      LandingRegisters(c, LandOne(c, l, adm[0], next), adm[1..], next);
    }
  }

  lemma AdvanceCarries(c: Scheme, s: State)
    requires Primitives(c) && Core(c, s)
    ensures Carries(c, s, AdvanceEpoch(c, s).0)
  {
    hide Core, Boundary, LandAll, SubjectId;
    AdvanceValue(c, s);
    BoundaryFields(c, s);
    LandingRegisters(c, Landing(s.classes, s.inboxes, s.stagedInboxes, true), s.staged.admissions, s.epoch + 1);
  }

  lemma EffectCarries(c: Scheme, s: State, d: Decision)
    requires Primitives(c) && Core(c, s)
    ensures Carries(c, s, Effect(c, s, d))
  {
    hide Core, AdvanceEpoch, SubjectId;
    AdvanceCarries(c, s);
  }

  lemma ExecuteCarries(c: Scheme, s: State, subject: Bytes32)
    requires Primitives(c) && Core(c, s)
    ensures Carries(c, s, Execute(c, s, subject).0)
  {
    hide Core, Effect, SubjectId;
    if Executes(s, subject) {
      ConsumedKeeps(c, s, subject);
      ExecuteValue(c, s, subject);
      EffectCarries(c, Consumed(s, subject), s.proposals[subject].decision);
    }
  }

  lemma VotingCarries(c: Scheme, s: State, id: Bytes32, proof: StubProof<ChainWitness>, n: Bytes32)
    ensures Carries(c, s, VouchAttest(c, s, id, proof, n).0)
  {
    hide VerifyChain, RootsIn, SubjectId;
  }

  lemma RedeemCarries(c: Scheme, s: State, k: Bytes32, proof: StubProof<ChainWitness>, challenge: Bytes32)
    ensures Carries(c, s, RedeemAccess(c, s, k, proof, challenge).0)
  {
    hide RedeemAccess, SubjectId;
    RedeemBurns(c, s, k, proof, challenge);
  }

  lemma ApproveCarries(c: Scheme, s: State, id: Bytes32, proof: StubProof<ChainWitness>, n: Bytes32)
    ensures Carries(c, s, Approve(c, s, id, proof, n).0)
  {
    hide VerifyChain, RootsIn, SubjectId;
  }

  lemma FinalizeCarries(c: Scheme, s: State, id: Bytes32)
    ensures Carries(c, s, VouchFinalize(c, s, id).0)
  {
    hide VouchFinalize, SubjectId;
    FinalizeOnly(c, s, id);
  }

  lemma MigrateCarries(c: Scheme, s: State, k: Bytes32, proof: StubProof<MigrationWitness>,
                       spend: Bytes32, successor: Bytes32, inbox: Bytes32)
    ensures Carries(c, s, Migrate(c, s, k, proof, spend, successor, inbox).0)
  {
    hide Migrate, SubjectId;
    MigrateOnly(c, s, k, proof, spend, successor, inbox);
  }

  lemma OpeningCarries(c: Scheme, s: State, a: Bytes32, b: Bytes32, id: Bytes32)
    ensures Carries(c, s, CredentialsInit(s, a, b).0)
    ensures Carries(c, s, StartVouch(c, s, a, b, id).0)
    ensures Carries(c, s, IssueChallenge(s, a).0)
  {
    hide Remaining, SubjectId;
  }

  lemma ProposeCarries(c: Scheme, s: State, d: Decision, k: Bytes32, nonce: Bytes32)
    ensures Carries(c, s, Propose(c, s, d, k, nonce).0)
  {
    hide SubjectId;
  }

  lemma CertifyingCarries(c: Scheme, s: State, leaf: Bytes32, inbox: Bytes32, action: InboxAction, proof: StubProof<InboxWitness>)
    ensures Carries(c, s, InboxCertificate(c, s, leaf, inbox, action, proof).0)
  {
    hide VerifyInbox, Landed, SubjectId;
  }

  lemma StepCarries(c: Scheme, s: State, step: Step)
    requires Primitives(c) && Core(c, s)
    ensures Carries(c, s, Apply(c, s, step).0)
  {
    hide Core, Carries, CredentialsInit, StartVouch, VouchFinalize, Migrate, Propose, Execute, InboxCertificate,
      AdvanceEpoch, IssueChallenge, RedeemAccess, VouchAttest, Approve;
    match step {
      case Init(commitment, inbox) => OpeningCarries(c, s, commitment, inbox, ZERO32);
      case Start(candidate, target, id) => OpeningCarries(c, s, candidate, target, id);
      case Attest(id, proof, n) => VotingCarries(c, s, id, proof, n);
      case Approving(id, proof, n) => ApproveCarries(c, s, id, proof, n);
      case Finalize(id) => FinalizeCarries(c, s, id);
      case Migrating(k, proof, spend, successor, inbox) => MigrateCarries(c, s, k, proof, spend, successor, inbox);
      case Proposing(d, k, nonce) => ProposeCarries(c, s, d, k, nonce);
      case Executing(subject) => ExecuteCarries(c, s, subject);
      case Certifying(leaf, inbox, action, proof) => CertifyingCarries(c, s, leaf, inbox, action, proof);
      case Advancing => AdvanceCarries(c, s);
      case Challenging(entropy) => OpeningCarries(c, s, entropy, entropy, entropy);
      case Redeeming(k, proof, challenge) => RedeemCarries(c, s, k, proof, challenge);
    }
  }

  lemma GenesisServed(c: Scheme, start: Start)
    requires Founds(c, start)
    ensures Served(c, Genesis(c, start).s)
  {
    hide LogSnapshot, SnapshotOf, FoundClasses, LandFounder, SubjectId;
  }

  lemma {:induction false} RunServes(c: Scheme, w: World, steps: seq<Step>)
    requires Primitives(c) && Sound(c, w) && Served(c, w.s)
    ensures Served(c, Run(c, w, steps).s)
  {
    hide Sound, Served, Next, Apply;
    if |steps| > 0 {
      var before := Run(c, w, steps[..|steps| - 1]);
      RunServes(c, w, steps[..|steps| - 1]);
      RunKeepsSound(c, w, steps[..|steps| - 1]);
      SoundIsCore(c, before);
      StepCarries(c, before.s, steps[|steps| - 1]);
      NextFields(c, before, steps[|steps| - 1]);
      CarriedIsServed(c, before.s, Run(c, w, steps).s);
    }
  }

  lemma SoundIsCore(c: Scheme, w: World)
    requires Sound(c, w)
    ensures Core(c, w.s)
  {
    hide Core;
  }

  lemma ReachableIsServed(c: Scheme, w: World)
    requires Primitives(c) && Reachable(c, w)
    ensures Served(c, w.s)
  {
    hide Sound, Served, Founds;
    var start, steps :| Founds(c, start) && w == Run(c, Genesis(c, start), steps);
    GenesisSound(c, start);
    GenesisServed(c, start);
    RunServes(c, Genesis(c, start), steps);
  }

  /** In every run, what is served of an open proposal recomputes to the identifier approvals are
      counted under, and it was raised in the current epoch. */
  lemma ProposalsRecompute(c: Scheme, w: World, subject: Bytes32)
    requires Primitives(c) && Reachable(c, w) && subject in w.s.proposals
    ensures Bound(c, w.s, subject, w.s.proposals[subject])
  {
    hide Reachable, SubjectId;
    ReachableIsServed(c, w);
  }

  /** In every run, a registration is live exactly for the horizon's epochs from the one it began
      in, and never for a revoked leaf: its age never saturates. */
  lemma RegistrationWindow(c: Scheme, w: World, leaf: Bytes32, key: Bytes32)
    requires Primitives(c) && Reachable(c, w)
    ensures InboxLive(w.s, leaf) == Some(key) <==>
              && leaf !in w.s.revokedLeaves
              && leaf in w.s.inboxes && w.s.inboxes[leaf].key == key
              && w.s.inboxes[leaf].since <= w.s.epoch < w.s.inboxes[leaf].since + w.s.horizon
  {
    hide Reachable, SubjectId;
    ReachableIsServed(c, w);
  }

  /** A renewal delivers at once to the key it names, and to no one else anything new. */
  lemma RenewalDelivers(c: Scheme, w: World, leaf: Bytes32, inbox: Bytes32, proof: StubProof<InboxWitness>, other: Bytes32)
    requires Primitives(c) && Reachable(c, w) && InboxCertificate(c, w.s, leaf, inbox, Renew, proof).1.Ok?
    ensures var s' := InboxCertificate(c, w.s, leaf, inbox, Renew, proof).0;
            && Landed(w.s, leaf)
            && InboxLive(s', leaf) == Some(inbox)
            && (other != leaf ==> InboxLive(s', other) == InboxLive(w.s, other))
  {
    hide Reachable, VerifyInbox, Landed, Core;
    ReachableIsSound(c, w);
    SoundIsCore(c, w);
    CoreGoverned(c, w.s);
  }

  /** A retirement stops delivery to the very key it names, and to no one else. */
  lemma RetirementStops(c: Scheme, s: State, leaf: Bytes32, inbox: Bytes32, proof: StubProof<InboxWitness>, other: Bytes32)
    requires InboxCertificate(c, s, leaf, inbox, Retire, proof).1.Ok?
    ensures var s' := InboxCertificate(c, s, leaf, inbox, Retire, proof).0;
            && leaf in s.inboxes && s.inboxes[leaf].key == inbox
            && InboxLive(s', leaf) == None
            && (other != leaf ==> InboxLive(s', other) == InboxLive(s, other))
  {
    hide VerifyInbox;
  }
}
