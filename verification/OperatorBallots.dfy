/** Every nullifier an open session or proposal counts has an accepted statement behind it. */
module OperatorBallots {
  import opened Wrappers
  import opened Bytes
  import opened Crypto
  import opened BatchTree
  import opened Exclusion
  import opened Statements
  import opened Decisions
  import opened Operator
  import opened OperatorLayout
  import opened OperatorRuns
  import opened Polls

  // ---- Every counted nullifier is backed ----

  function LeavesAt(d: Ground, k: Bytes32): seq<Bytes32> {
    if k in d.trees.leaves then d.trees.leaves[k] else []
  }

  function VoucherOf(d: Ground, target: Bytes32): Bytes32 {
    if target in d.vouchers then d.vouchers[target] else target
  }

  function VouchPoll(d: Ground, target: Bytes32, id: Bytes32): Poll {
    Poll(d.agora, d.epoch, LeavesAt(d, VoucherOf(d, target)), d.trees.revoked, d.trees.spent, id, true)
  }

  function ApprovalPoll(d: Ground, approving: Bytes32, subject: Bytes32): Poll {
    Poll(d.agora, d.epoch, LeavesAt(d, approving), d.trees.revoked, d.trees.spent, subject, false)
  }

  /** The recorded evidence for these nullifiers of one poll. */
  function BallotsFor(votes: map<(Bytes32, Bytes32), ChainWitness>, id: Bytes32, ns: set<Bytes32>):
    map<Bytes32, ChainWitness>
  {
    map n | n in ns && (id, n) in votes :: votes[(id, n)]
  }

  /** Every one of these nullifiers has an accepted statement on record. */
  ghost predicate Tallied(c: Scheme, p: Poll, votes: map<(Bytes32, Bytes32), ChainWitness>, ns: set<Bytes32>) {
    Accepted(c, p, BallotsFor(votes, p.subject, ns)) == ns
  }

  lemma TallyAdds(c: Scheme, p: Poll, votes: map<(Bytes32, Bytes32), ChainWitness>, ns: set<Bytes32>,
                  n: Bytes32, w: ChainWitness)
    requires Tallied(c, p, votes, ns) && Ballot(c, p, n, w)
    ensures Tallied(c, p, votes[(p.subject, n) := w], ns + {n})
  {
    hide Ballot;
    var before, after := BallotsFor(votes, p.subject, ns), BallotsFor(votes[(p.subject, n) := w], p.subject, ns + {n});
    forall m | m in ns ensures m in Accepted(c, p, after) || m == n {
      assert m in Accepted(c, p, before);
    }
    assert n in Accepted(c, p, after);
  }

  lemma TallyElsewhere(c: Scheme, p: Poll, votes: map<(Bytes32, Bytes32), ChainWitness>, ns: set<Bytes32>,
                       other: Bytes32, n: Bytes32, w: ChainWitness)
    requires Tallied(c, p, votes, ns) && other != p.subject
    ensures Tallied(c, p, votes[(other, n) := w], ns)
  {
    assert BallotsFor(votes[(other, n) := w], p.subject, ns) == BallotsFor(votes, p.subject, ns);
  }

  lemma NothingTallied(c: Scheme, p: Poll, votes: map<(Bytes32, Bytes32), ChainWitness>)
    ensures Tallied(c, p, votes, {})
  {
  }

  /** The sessions with an unbacked nullifier. */
  ghost function UnbackedSessions(c: Scheme, d: Ground, sessions: map<Bytes32, Session>,
                                  votes: map<(Bytes32, Bytes32), ChainWitness>): set<Bytes32>
  {
    set id | id in sessions && !Tallied(c, VouchPoll(d, sessions[id].target, id), votes, sessions[id].nullifiers)
  }

  ghost function UnbackedProposals(c: Scheme, d: Ground, proposals: map<Bytes32, Proposal>,
                                   approvals: map<(Bytes32, Bytes32), ChainWitness>): set<Bytes32>
  {
    set id | id in proposals && !Tallied(c, ApprovalPoll(d, proposals[id].approving, id), approvals, proposals[id].approvals)
  }

  ghost predicate VotesOk(c: Scheme, w: World) {
    UnbackedSessions(c, GroundOf(w.s), w.s.sessions, w.g.votes) == {}
  }

  ghost predicate ApprovalsOk(c: Scheme, w: World) {
    UnbackedProposals(c, GroundOf(w.s), w.s.proposals, w.g.approvals) == {}
  }

  lemma SessionBacked(c: Scheme, w: World, id: Bytes32)
    requires VotesOk(c, w) && id in w.s.sessions
    ensures Tallied(c, VouchPoll(GroundOf(w.s), w.s.sessions[id].target, id), w.g.votes, w.s.sessions[id].nullifiers)
  {
    assert id !in UnbackedSessions(c, GroundOf(w.s), w.s.sessions, w.g.votes);
  }

  lemma ProposalBacked(c: Scheme, w: World, id: Bytes32)
    requires ApprovalsOk(c, w) && id in w.s.proposals
    ensures Tallied(c, ApprovalPoll(GroundOf(w.s), w.s.proposals[id].approving, id), w.g.approvals, w.s.proposals[id].approvals)
  {
    assert id !in UnbackedProposals(c, GroundOf(w.s), w.s.proposals, w.g.approvals);
  }

  /** An accepted attestation is a ballot of its session. */
  lemma AttestIsBallot(c: Scheme, w: World, id: Bytes32, proof: StubProof<ChainWitness>, n: Bytes32)
    requires Covered(c, w.g.genesis, w.g.past, GroundOf(w.s)) && VouchAttest(c, w.s, id, proof, n).1.Ok?
    ensures Ballot(c, VouchPoll(GroundOf(w.s), w.s.sessions[id].target, id), n, proof.material)
  {
    hide ChainHolds, ChainType, ChainBinding, Covered;
    RootsNow(c, w.g.genesis, w.g.past, w.s, w.s.classes[w.s.sessions[id].target].policy.voucherClass);
  }

  lemma ApproveIsBallot(c: Scheme, w: World, id: Bytes32, proof: StubProof<ChainWitness>, n: Bytes32)
    requires Covered(c, w.g.genesis, w.g.past, GroundOf(w.s)) && Approve(c, w.s, id, proof, n).1.Ok?
    ensures Ballot(c, ApprovalPoll(GroundOf(w.s), w.s.proposals[id].approving, id), n, proof.material)
  {
    hide ChainHolds, ChainType, ChainBinding, Covered;
    RootsNow(c, w.g.genesis, w.g.past, w.s, w.s.proposals[id].approving);
  }

  lemma AttestKeepsVotes(c: Scheme, w: World, id: Bytes32, proof: StubProof<ChainWitness>, n: Bytes32)
    requires Covered(c, w.g.genesis, w.g.past, GroundOf(w.s)) && VotesOk(c, w)
    ensures var (s', answer) := VouchAttest(c, w.s, id, proof, n);
            UnbackedSessions(c, GroundOf(w.s), s'.sessions,
                             if answer.Ok? then w.g.votes[(id, n) := proof.material] else w.g.votes) == {}
  {
    hide Ballot, Tallied, Covered, VerifyChain, GroundOf, VouchPoll;
    var (s', answer) := VouchAttest(c, w.s, id, proof, n);
    if answer.Ok? {
      AttestIsBallot(c, w, id, proof, n);
      var d := GroundOf(w.s);
      forall j | j in s'.sessions
        ensures Tallied(c, VouchPoll(d, s'.sessions[j].target, j), w.g.votes[(id, n) := proof.material], s'.sessions[j].nullifiers)
      {
        SessionBacked(c, w, j);
        VotePoll(d, w.s.sessions[j].target, j);
        if j == id {
          TallyAdds(c, VouchPoll(d, w.s.sessions[j].target, j), w.g.votes, w.s.sessions[j].nullifiers, n, proof.material);
        } else {
          TallyElsewhere(c, VouchPoll(d, w.s.sessions[j].target, j), w.g.votes, w.s.sessions[j].nullifiers, id, n, proof.material);
        }
      }
    }
  }

  lemma VotePoll(d: Ground, k: Bytes32, id: Bytes32)
    ensures VouchPoll(d, k, id).subject == id && ApprovalPoll(d, k, id).subject == id
  {
  }

  lemma ApproveKeepsApprovals(c: Scheme, w: World, id: Bytes32, proof: StubProof<ChainWitness>, n: Bytes32)
    requires Covered(c, w.g.genesis, w.g.past, GroundOf(w.s)) && ApprovalsOk(c, w)
    ensures var (s', answer) := Approve(c, w.s, id, proof, n);
            UnbackedProposals(c, GroundOf(w.s), s'.proposals,
                              if answer.Ok? then w.g.approvals[(id, n) := proof.material] else w.g.approvals) == {}
  {
    hide Ballot, Tallied, Covered, VerifyChain, GroundOf, ApprovalPoll;
    var (s', answer) := Approve(c, w.s, id, proof, n);
    if answer.Ok? {
      ApproveIsBallot(c, w, id, proof, n);
      var d := GroundOf(w.s);
      forall j | j in s'.proposals
        ensures Tallied(c, ApprovalPoll(d, s'.proposals[j].approving, j), w.g.approvals[(id, n) := proof.material], s'.proposals[j].approvals)
      {
        ProposalBacked(c, w, j);
        VotePoll(d, w.s.proposals[j].approving, j);
        if j == id {
          TallyAdds(c, ApprovalPoll(d, w.s.proposals[j].approving, j), w.g.approvals, w.s.proposals[j].approvals, n, proof.material);
        } else {
          TallyElsewhere(c, ApprovalPoll(d, w.s.proposals[j].approving, j), w.g.approvals, w.s.proposals[j].approvals, id, n, proof.material);
        }
      }
    }
  }

  ghost predicate NoNewVotes(before: map<Bytes32, Session>, after: map<Bytes32, Session>) {
    forall id :: id in after ==> (id in before && after[id] == before[id]) || after[id].nullifiers == {}
  }

  ghost predicate NoNewApprovals(before: map<Bytes32, Proposal>, after: map<Bytes32, Proposal>) {
    forall id :: id in after ==> (id in before && after[id] == before[id]) || after[id].approvals == {}
  }

  lemma QuietSessions(c: Scheme, d: Ground, before: map<Bytes32, Session>, after: map<Bytes32, Session>,
                      votes: map<(Bytes32, Bytes32), ChainWitness>)
    requires UnbackedSessions(c, d, before, votes) == {} && NoNewVotes(before, after)
    ensures UnbackedSessions(c, d, after, votes) == {}
  {
    hide Tallied, VouchPoll;
    forall id | id in after
      ensures Tallied(c, VouchPoll(d, after[id].target, id), votes, after[id].nullifiers)
    {
      if after[id].nullifiers == {} {
        NothingTallied(c, VouchPoll(d, after[id].target, id), votes);
      } else {
        assert id !in UnbackedSessions(c, d, before, votes);
      }
    }
  }

  lemma QuietProposals(c: Scheme, d: Ground, before: map<Bytes32, Proposal>, after: map<Bytes32, Proposal>,
                       approvals: map<(Bytes32, Bytes32), ChainWitness>)
    requires UnbackedProposals(c, d, before, approvals) == {} && NoNewApprovals(before, after)
    ensures UnbackedProposals(c, d, after, approvals) == {}
  {
    hide Tallied, ApprovalPoll;
    forall id | id in after
      ensures Tallied(c, ApprovalPoll(d, after[id].approving, id), approvals, after[id].approvals)
    {
      if after[id].approvals == {} {
        NothingTallied(c, ApprovalPoll(d, after[id].approving, id), approvals);
      } else {
        assert id !in UnbackedProposals(c, d, before, approvals);
      }
    }
  }

  ghost predicate QuietCounts(s: State, s': State) {
    NoNewVotes(s.sessions, s'.sessions) && NoNewApprovals(s.proposals, s'.proposals)
  }

  lemma EffectIsQuiet(c: Scheme, s: State, d: Decision)
    requires Primitives(c) && Core(c, s)
    ensures QuietCounts(s, Effect(c, s, d))
  {
    hide Core, Boundary, LandedAll;
    AdvanceIsQuiet(c, s);
  }

  lemma ExecuteIsQuiet(c: Scheme, s: State, subject: Bytes32)
    requires Primitives(c) && Core(c, s)
    ensures QuietCounts(s, Execute(c, s, subject).0)
  {
    hide Core, Boundary, LandedAll, Effect;
    if Executes(s, subject) {
      ConsumedKeeps(c, s, subject);
      ExecuteValue(c, s, subject);
      EffectIsQuiet(c, Consumed(s, subject), s.proposals[subject].decision);
    }
  }

  lemma AdvanceIsQuiet(c: Scheme, s: State)
    requires Primitives(c) && Core(c, s)
    ensures QuietCounts(s, AdvanceEpoch(c, s).0)
  {
    hide Core, Boundary, LandedAll;
    AdvanceValue(c, s);
    BoundaryFields(c, s);
  }

  lemma FinalizeIsQuiet(c: Scheme, s: State, id: Bytes32)
    ensures QuietCounts(s, VouchFinalize(c, s, id).0)
  {
    hide Remaining;
  }

  lemma MigrateIsQuiet(c: Scheme, s: State, k: Bytes32, proof: StubProof<MigrationWitness>,
                       spend: Bytes32, successor: Bytes32, inbox: Bytes32)
    ensures QuietCounts(s, Migrate(c, s, k, proof, spend, successor, inbox).0)
  {
    hide VerifyMigration, RootsIn, Remaining;
  }

  lemma OpeningIsQuiet(c: Scheme, s: State, a: Bytes32, b: Bytes32, id: Bytes32, d: Decision)
    ensures QuietCounts(s, CredentialsInit(s, a, b).0)
    ensures QuietCounts(s, StartVouch(c, s, a, b, id).0)
    ensures QuietCounts(s, IssueChallenge(s, a).0)
    ensures QuietCounts(s, Propose(c, s, d, a, b).0)
  {
    hide Remaining, SubjectId;
  }

  lemma CertifyingIsQuiet(c: Scheme, s: State, leaf: Bytes32, inbox: Bytes32, action: InboxAction,
                          proof: StubProof<InboxWitness>)
    ensures QuietCounts(s, InboxCertificate(c, s, leaf, inbox, action, proof).0)
  {
    hide VerifyInbox, Landed;
  }

  /** No step but a counted one adds to any count. */
  lemma StepIsQuiet(c: Scheme, s: State, step: Step)
    requires Primitives(c) && Core(c, s) && !step.Attest? && !step.Approving?
    ensures QuietCounts(s, Apply(c, s, step).0)
  {
    hide Core, QuietCounts, CredentialsInit, StartVouch, VouchFinalize, Migrate, Propose, Execute, InboxCertificate,
      AdvanceEpoch, IssueChallenge, RedeemAccess;
    match step {
      case Init(commitment, inbox) => OpeningIsQuiet(c, s, commitment, inbox, ZERO32, Dissolution);
      case Start(candidate, target, id) => OpeningIsQuiet(c, s, candidate, target, id, Dissolution);
      case Finalize(id) => FinalizeIsQuiet(c, s, id);
      case Migrating(k, proof, spend, successor, inbox) => MigrateIsQuiet(c, s, k, proof, spend, successor, inbox);
      case Proposing(d, k, nonce) => OpeningIsQuiet(c, s, k, nonce, k, d);
      case Executing(subject) => ExecuteIsQuiet(c, s, subject);
      case Certifying(leaf, inbox, action, proof) => CertifyingIsQuiet(c, s, leaf, inbox, action, proof);
      case Advancing => AdvanceIsQuiet(c, s);
      case Challenging(entropy) => OpeningIsQuiet(c, s, entropy, entropy, entropy, Dissolution);
      case Redeeming(k, proof, challenge) => RedeemIsQuiet(c, s, k, proof, challenge);
    }
  }

  lemma RedeemIsQuiet(c: Scheme, s: State, k: Bytes32, proof: StubProof<ChainWitness>, challenge: Bytes32)
    ensures QuietCounts(s, RedeemAccess(c, s, k, proof, challenge).0)
  {
    hide RedeemAccess;
    RedeemBurns(c, s, k, proof, challenge);
  }

  lemma AttestIsQuiet(c: Scheme, s: State, id: Bytes32, proof: StubProof<ChainWitness>, n: Bytes32)
    ensures VouchAttest(c, s, id, proof, n).0.proposals == s.proposals
    ensures Approve(c, s, id, proof, n).0.sessions == s.sessions
  {
    hide VerifyChain, RootsIn;
  }

  lemma CrossingCloses(c: Scheme, s: State, step: Step)
    requires Primitives(c) && Core(c, s) && Crossing(s, step).Some?
    ensures Apply(c, s, step).0.sessions == map[] && Apply(c, s, step).0.proposals == map[]
  {
    hide Apply, Core, Boundary, Crossing;
    CrossingIsBoundary(c, s, step);
    BoundaryFields(c, Crossing(s, step).value);
  }

  lemma StepKeepsVotes(c: Scheme, w: World, step: Step)
    requires Primitives(c) && Core(c, w.s) && Covered(c, w.g.genesis, w.g.past, GroundOf(w.s)) && VotesOk(c, w)
    ensures VotesOk(c, Next(c, w, step))
  {
    hide Core, Covered, GroundOf, Tallied, VouchPoll, VouchAttest, Approve;
    if Crossing(w.s, step).Some? {
      CrossingCloses(c, w.s, step);
    } else {
      StepKeepsGround(c, w.s, step);
      match step {
        case Attest(id, proof, n) => AttestKeepsVotes(c, w, id, proof, n);
        case Approving(id, proof, n) => AttestIsQuiet(c, w.s, id, proof, n);
        case _ =>
          StepIsQuiet(c, w.s, step);
          QuietSessions(c, GroundOf(w.s), w.s.sessions, Apply(c, w.s, step).0.sessions, w.g.votes);
      }
    }
  }

  lemma StepKeepsApprovals(c: Scheme, w: World, step: Step)
    requires Primitives(c) && Core(c, w.s) && Covered(c, w.g.genesis, w.g.past, GroundOf(w.s)) && ApprovalsOk(c, w)
    ensures ApprovalsOk(c, Next(c, w, step))
  {
    hide Core, Covered, GroundOf, Tallied, ApprovalPoll, VouchAttest, Approve;
    if Crossing(w.s, step).Some? {
      CrossingCloses(c, w.s, step);
    } else {
      StepKeepsGround(c, w.s, step);
      match step {
        case Approving(id, proof, n) => ApproveKeepsApprovals(c, w, id, proof, n);
        case Attest(id, proof, n) => AttestIsQuiet(c, w.s, id, proof, n);
        case _ =>
          StepIsQuiet(c, w.s, step);
          QuietProposals(c, GroundOf(w.s), w.s.proposals, Apply(c, w.s, step).0.proposals, w.g.approvals);
      }
    }
  }
}
