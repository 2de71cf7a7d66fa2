/** When each request is answered yes, exactly, in every run: told from the live trees, what is
    staged and what is open, and what the state becomes. */
module OperatorAnswers {
  import opened Wrappers
  import opened Bytes
  import opened Crypto
  import opened BatchTree
  import opened Exclusion
  import opened Statements
  import opened Decisions
  import opened Operator
  import opened OperatorLayout
  import opened OperatorRuns
  import opened OperatorBallots
  import opened OperatorReceipts
  import opened OperatorMigrations
  import opened OperatorSafety
  import opened OperatorMembership
  import opened OperatorSessions
  import opened Polls
  import Merkle

  // ---- Room ----

  /** The places in the staging order taken for a class. */
  function StagedSlots(adm: Admissions, k: Bytes32): set<nat> {
    set i | 0 <= i < |adm| && adm[i].0 == k
  }

  /** Where the next leaf staged for a class will land. */
  function NextPlace(s: State, k: Bytes32): nat
    requires k in s.classes
  {
    |s.classes[k].leaves| + 2 * |StagedSlots(s.staged.admissions, k)|
  }

  /** The class's tree has a slot there. */
  predicate Room(c: Scheme, s: State, k: Bytes32)
    requires k in s.classes
  {
    NextPlace(s, k) < Merkle.Pow2(c.depth)
  }

  lemma {:induction false} StagedSlotsCount(adm: Admissions, k: Bytes32)
    ensures |StagedSlots(adm, k)| == StagedIn(adm, k)
  {
    if |adm| > 0 {
      var init, last := adm[..|adm| - 1], adm[|adm| - 1];
      StagedSlotsCount(init, k);
      assert adm == init + [last];
      StagedAppend(init, last, k);
      if last.0 == k {
        assert StagedSlots(adm, k) == StagedSlots(init, k) + {|init|};
      } else {
        assert StagedSlots(adm, k) == StagedSlots(init, k);
      }
    } else {
      assert StagedSlots(adm, k) == {};
    }
  }

  lemma RoomIs(c: Scheme, s: State, k: Bytes32)
    requires Primitives(c) && Core(c, s) && k in s.classes
    ensures Room(c, s, k) <==> Remaining(c, s, k) != 0
    ensures NextPlace(s, k) == PositionOf(s.classes[k].occupied + StagedIn(s.staged.admissions, k))
  {
    hide Core, StagedSlots, StagedIn, Capacity, ClassesOk, StagedOk;
    CoreLayout(c, s);
    ClassIn(c, s.classes, k);
    CapacityIsHalf(c);
    RemainingIsNatural(c, s, k);
    StagedSlotsCount(s.staged.admissions, k);
  }

  // ---- Staging ----

  predicate Stageable(c: Scheme, s: State, k: Bytes32, leaf: Bytes32) {
    k in s.classes && Room(c, s, k) && leaf !in s.classes[k].positions && (k, leaf) !in s.staged.admissions
  }

  function Staging(s: State, k: Bytes32, leaf: Bytes32): State {
    s.(staged := s.staged.(admissions := s.staged.admissions + [(k, leaf)]))
  }

  /** Staging succeeds exactly with room for a new leaf, and promises the next place and epoch. */
  lemma StagingAnswer(c: Scheme, s: State, k: Bytes32, leaf: Bytes32)
    requires Primitives(c) && Core(c, s) && s.epoch + 1 < U64
    ensures StageAdmission(c, s, k, leaf) ==
            if Stageable(c, s, k, leaf) then (Staging(s, k, leaf), Ok(Admitted(Admission(s.epoch + 1, NextPlace(s, k)))))
            else (s, Err(Rejected))
  {
    hide Core, Remaining, StagedIn, Room, NextPlace, PositionOf;
    if k in s.classes {
      RoomIs(c, s, k);
    }
  }

  // ---- Vouching ----

  /** A session has counted as many ballots as its class asks. */
  predicate Endorsed(s: State, id: Bytes32) {
    id in s.sessions && s.sessions[id].target in s.classes
    && |s.sessions[id].nullifiers| >= s.classes[s.sessions[id].target].policy.threshold
  }

  /** The state with a session consumed, and its candidate no longer pending if it was vouched. */
  function Closed(s: State, id: Bytes32): State
    requires id in s.sessions
  {
    s.(sessions := s.sessions - {id}, pending := if Endorsed(s, id) then s.pending - {s.sessions[id].candidate} else s.pending)
  }

  lemma ClosedKeeps(c: Scheme, s: State, id: Bytes32)
    requires Core(c, s) && id in s.sessions && !s.dissolved
    ensures Core(c, Closed(s, id))
    ensures forall k, leaf :: Stageable(c, Closed(s, id), k, leaf) <==> Stageable(c, s, k, leaf)
    ensures forall k :: k in s.classes ==> NextPlace(Closed(s, id), k) == NextPlace(s, k)
  {
    hide Core, StagedSlots;
    FrameKeeps(c, s, Closed(s, id));
  }

  /** A finalized session's answer, exactly: before the last epoch an open session admits its
      candidate if and only if it counted its class's threshold, the class has room, and the
      candidate is neither landed nor staged there; and the session is consumed either way. */
  lemma FinalizeAnswer(c: Scheme, s: State, id: Bytes32)
    requires Primitives(c) && Core(c, s) && !s.dissolved && s.epoch + 1 < U64 && id in s.sessions
    ensures var session := s.sessions[id];
            VouchFinalize(c, s, id) ==
            if Endorsed(s, id) && Stageable(c, s, session.target, session.candidate)
            then (Staging(Closed(s, id), session.target, session.candidate),
                  Ok(Admitted(Admission(s.epoch + 1, NextPlace(s, session.target)))))
            else (Closed(s, id), Err(Rejected))
  {
    hide Core, StageAdmission, Room, NextPlace;
    var session := s.sessions[id];
    ClosedKeeps(c, s, id);
    StagingAnswer(c, Closed(s, id), session.target, session.candidate);
  }

  /** A session's class exists. */
  lemma SessionTargeted(c: Scheme, w: World, id: Bytes32)
    requires Primitives(c) && Reachable(c, w) && id in w.s.sessions
    ensures w.s.sessions[id].target in w.s.classes
  {
    hide Founds, Genesis, Sound, Run, Next, Extends;
    var start, steps :| Founds(c, start) && w == Run(c, Genesis(c, start), steps);
    GenesisHasNoSessions(c, start);
    var j := SessionOpened(c, Genesis(c, start), steps, id);
    var before := At(c, Genesis(c, start), steps, j);
    ReopenedSession(c, before.s, steps[j], id);
    assert steps == steps[..j] + steps[j..];
    RunAppends(c, Genesis(c, start), steps[..j], steps[j..]);
    RunKeepsSound(c, Genesis(c, start), steps[..j]);
    KeysKept(c, before, steps[j..]);
  }

  lemma KeysKept(c: Scheme, w: World, steps: seq<Step>)
    requires Primitives(c) && Sound(c, w)
    ensures Run(c, w, steps).s.classes.Keys == w.s.classes.Keys
  {
    hide Sound, Run, TreesOf;
    RunKeepsSound(c, w, steps);
    RunIsLater(c, w, steps);
    NowCovered(c, w);
    PastPrefixes(c, Run(c, w, steps), w.s.epoch);
    TreeKeys(w.s);
    TreeKeys(Run(c, w, steps).s);
  }

  lemma TreeKeys(s: State)
    ensures TreesOf(s).leaves.Keys == s.classes.Keys
  {
    assert LeavesOf(s.classes).Keys == s.classes.Keys;
  }

  /** In every run, in every live state with an epoch left: an open session admits its candidate if
      and only if the ballots it counted reach its class's threshold, the class's tree has a free
      slot past what is staged, and the candidate is neither landed nor staged there. */
  lemma AdmittedExactly(c: Scheme, w: World, id: Bytes32)
    requires Primitives(c) && Reachable(c, w) && !w.s.dissolved && w.s.epoch + 1 < U64 && id in w.s.sessions
    ensures var session := w.s.sessions[id];
            && session.target in w.s.classes
            && ((exists a :: VouchFinalize(c, w.s, id).1 == Ok(Admitted(a))) <==>
                  && |session.nullifiers| >= w.s.classes[session.target].policy.threshold
                  && Room(c, w.s, session.target)
                  && session.candidate !in w.s.classes[session.target].positions
                  && (session.target, session.candidate) !in w.s.staged.admissions)
            && (VouchFinalize(c, w.s, id).1.Ok? ==>
                  VouchFinalize(c, w.s, id).1 == Ok(Admitted(Admission(w.s.epoch + 1, NextPlace(w.s, session.target)))))
            && (VouchFinalize(c, w.s, id).1.Err? ==> VouchFinalize(c, w.s, id).1 == Err(Rejected))
            && id !in VouchFinalize(c, w.s, id).0.sessions
  {
    hide Reachable, Sound, Core, VouchFinalize, Room, NextPlace;
    ReachableIsSound(c, w);
    SoundHasCore(c, w);
    SessionTargeted(c, w, id);
    FinalizeAnswer(c, w.s, id);
  }

  /** A session is opened exactly for a pending candidate of a class that has room and does not hold
      it, and starts with nothing counted. */
  lemma StartAnswer(c: Scheme, s: State, candidate: Bytes32, target: Bytes32, id: Bytes32)
    requires Primitives(c) && Core(c, s)
    ensures StartVouch(c, s, candidate, target, id) ==
            if !s.dissolved && candidate in s.pending && target in s.classes && candidate !in s.classes[target].positions
               && Room(c, s, target)
            then (s.(sessions := s.sessions[id := Session(candidate, target, {})]), Ok(Opened(id)))
            else (s, Err(Rejected))
  {
    hide Core, Remaining, Room;
    if target in s.classes {
      RoomIs(c, s, target);
    }
  }

  /** A proof presented for a ballot of a poll. */
  predicate Presents(c: Scheme, p: Poll, n: Bytes32, proof: StubProof<ChainWitness>) {
    proof.binding == ChainBinding(c, PollPublic(c, p, n)) && Ballot(c, p, n, proof.material)
  }

  lemma PublicsAgree(c: Scheme, w: World, k: Bytes32, subject: Bytes32, n: Bytes32)
    requires Sound(c, w) && k in w.s.classes
    ensures RootsIn(w.s, w.s.epoch, k).Some?
    ensures VouchPublic(w.s, RootsIn(w.s, w.s.epoch, k).value, subject, n) == PollPublic(c, PollOn(w.s, k, subject, true), n)
    ensures ApprovalPublic(w.s, RootsIn(w.s, w.s.epoch, k).value, subject, n) == PollPublic(c, PollOn(w.s, k, subject, false), n)
  {
    hide Core, Growing, TreeRoot, SetRoot, ReceiptsOk, EvidenceOk, VotesOk, ApprovalsOk, CountsOk;
    HereRoots(c, w, k);
    RootsNow(c, w.g.genesis, w.g.past, w.s, k);
  }

  lemma NoRoots(c: Scheme, w: World, k: Bytes32)
    requires Sound(c, w) && RootsIn(w.s, w.s.epoch, k).Some?
    ensures k in w.s.classes
  {
    hide Core, Growing, TreeRoot, SetRoot, ReceiptsOk, EvidenceOk, VotesOk, ApprovalsOk, CountsOk;
    RootsNow(c, w.g.genesis, w.g.past, w.s, k);
  }

  /** In every run a ballot is counted exactly when its session is open, it was not counted before,
      and its proof holds against the live trees of the session's voucher class. */
  lemma AttestAnswer(c: Scheme, w: World, id: Bytes32, proof: StubProof<ChainWitness>, n: Bytes32)
    requires Primitives(c) && Reachable(c, w)
    ensures id in w.s.sessions ==>
              w.s.sessions[id].target in w.s.classes && w.s.classes[w.s.sessions[id].target].policy.voucherClass in w.s.classes
    ensures VouchAttest(c, w.s, id, proof, n) ==
            if !w.s.dissolved && id in w.s.sessions && n !in w.s.sessions[id].nullifiers
               && Presents(c, PollOn(w.s, w.s.classes[w.s.sessions[id].target].policy.voucherClass, id, true), n, proof)
            then (w.s.(sessions := w.s.sessions[id := w.s.sessions[id].(nullifiers := w.s.sessions[id].nullifiers + {n})]), Ok(Recorded))
            else (w.s, Err(Rejected))
  {
    hide Reachable, Sound, Core, ChainHolds, ChainType, ChainBinding, RootsIn;
    ReachableIsSound(c, w);
    SoundHasCore(c, w);
    if id in w.s.sessions {
      SessionTargeted(c, w, id);
      VouchPollIs(c, w.s, id);
      PublicsAgree(c, w, w.s.classes[w.s.sessions[id].target].policy.voucherClass, id, n);
    }
  }

  // ---- Deciding ----

  /** In every run an approval is counted exactly when its proposal is open, it was not counted
      before, and its proof holds against the live trees of the approving class. */
  lemma ApproveAnswer(c: Scheme, w: World, subject: Bytes32, proof: StubProof<ChainWitness>, n: Bytes32)
    requires Primitives(c) && Reachable(c, w)
    ensures subject in w.s.proposals ==> w.s.proposals[subject].approving in w.s.classes
    ensures Approve(c, w.s, subject, proof, n) ==
            if !w.s.dissolved && subject in w.s.proposals && n !in w.s.proposals[subject].approvals
               && Presents(c, PollOn(w.s, w.s.proposals[subject].approving, subject, false), n, proof)
            then (w.s.(proposals := w.s.proposals[subject := w.s.proposals[subject].(approvals := w.s.proposals[subject].approvals + {n})]),
                  Ok(Recorded))
            else (w.s, Err(Rejected))
  {
    hide Reachable, Sound, Core, ChainHolds, ChainType, ChainBinding, RootsIn;
    ReachableIsSound(c, w);
    SoundHasCore(c, w);
    if subject in w.s.proposals {
      ApprovalPollIs(c, w.s, subject);
      PublicsAgree(c, w, w.s.proposals[subject].approving, subject, n);
    }
  }

  /** A decision that could be carried out: its class exists, and it sets nothing below its floor. */
  predicate Sensible(s: State, d: Decision) {
    && (d.Policy? ==> d.threshold > 0 && d.quorum > 0)
    && (d.InboxHorizon? ==> d.boundaries >= 7)
  }

  /** A proposal is opened exactly by a live agora for a known class and a decision that could be
      carried out, with no approvals, under the identifier of everything it says; a value below its
      floor is the proposer's own mistake, and anything else is refused without saying why. */
  lemma ProposeAnswer(c: Scheme, s: State, d: Decision, approving: Bytes32, nonce: Bytes32)
    ensures var subject := SubjectId(c, s.agora, s.epoch, approving, d, nonce);
            var known := !s.dissolved && approving in s.classes && (d.Policy? ==> d.class_ in s.classes);
            Propose(c, s, d, approving, nonce) ==
            if known && Sensible(s, d)
            then (s.(proposals := s.proposals[subject := Proposal(d, approving, s.epoch, nonce, {})]), Ok(Raised(subject)))
            else (s, Err(if known then Malformed else Rejected))
  {
    hide SubjectId;
  }

  /** What a decision carried out answers, and what it leaves: a policy its class's next version, the
      horizon it set and nothing else, or an agora with nothing open, nothing staged and no secret. */
  ghost predicate CarriedOut(s: State, subject: Bytes32, s': State, answer: Response)
    requires subject in s.proposals
  {
    var d := s.proposals[subject].decision;
    && subject !in s'.proposals
    && match d
       case Policy(k, _, _) => k in s.classes && answer == PolicyActivated(s.classes[k].version + 1)
       case Revocation(leaf) => answer == Revoked && leaf in s'.revokedLeaves && s'.epoch == s.epoch + 1
       case Dissolution =>
         && answer == Dissolved
         && s'.dissolved && NothingOpen(s') && s'.pending == {} && s'.tagSecret == ZERO32 && s'.statementSeed == ZERO32
       case InboxHorizon(boundaries) =>
         answer == HorizonSet(boundaries) && s' == s.(horizon := boundaries, proposals := s.proposals - {subject})
  }

  lemma DecidedAnswer(c: Scheme, s: State, subject: Bytes32)
    requires Executes(s, subject) && DecisionOk(s.classes, s.proposals[subject].decision)
    requires !s.proposals[subject].decision.Revocation?
    ensures Execute(c, s, subject).1.Ok? && CarriedOut(s, subject, Execute(c, s, subject).0, Execute(c, s, subject).1.value)
  {
    hide AdvanceEpoch, Log.Appended;
  }

  lemma RevokedAnswer(c: Scheme, s: State, subject: Bytes32)
    requires Primitives(c) && Core(c, s) && Executes(s, subject) && s.proposals[subject].decision.Revocation?
    ensures Execute(c, s, subject).1.Ok? <==> s.epoch + 1 < U64
    ensures Execute(c, s, subject).1.Ok? ==> CarriedOut(s, subject, Execute(c, s, subject).0, Execute(c, s, subject).1.value)
  {
    hide Core, AdvanceEpoch;
    ConsumedKeeps(c, s, subject);
    RevocationCrosses(c, s, subject);
  }

  /** In every run an open proposal is carried out exactly when its approvals reach the quorum in
      force, the last epoch's revocation aside; and then it is gone and has done what it says. */
  lemma ExecuteAnswer(c: Scheme, w: World, subject: Bytes32)
    requires Primitives(c) && Reachable(c, w)
    ensures Execute(c, w.s, subject).1.Ok? <==>
              && !w.s.dissolved && subject in w.s.proposals
              && |w.s.proposals[subject].approvals| >= w.s.quorum
              && (w.s.proposals[subject].decision.Revocation? ==> w.s.epoch + 1 < U64)
    ensures Execute(c, w.s, subject).1.Ok? ==>
              CarriedOut(w.s, subject, Execute(c, w.s, subject).0, Execute(c, w.s, subject).1.value)
  {
    hide Reachable, Sound, Core, Execute, CarriedOut;
    ReachableIsSound(c, w);
    SoundHasCore(c, w);
    CoreGoverned(c, w.s);
    if Executes(w.s, subject) {
      assert ProposalOk(w.s.classes, w.s.proposals[subject]);
      if w.s.proposals[subject].decision.Revocation? {
        RevokedAnswer(c, w.s, subject);
      } else {
        DecidedAnswer(c, w.s, subject);
      }
    } else {
      ExecuteRefusedAnswer(c, w.s, subject);
    }
  }

  lemma ExecuteRefusedAnswer(c: Scheme, s: State, subject: Bytes32)
    requires !Executes(s, subject)
    ensures Execute(c, s, subject) == (s, Err(Rejected))
  {
  }

  lemma RevocationCrosses(c: Scheme, s: State, subject: Bytes32)
    requires Primitives(c) && Core(c, s) && Executes(s, subject) && s.proposals[subject].decision.Revocation?
    requires Core(c, Consumed(s, subject))
    ensures var (s', answer) := AdvanceEpoch(c, Consumed(s, subject));
            && (answer.Ok? <==> s.epoch + 1 < U64)
            && (answer.Ok? ==> s'.proposals == map[] && s'.epoch == s.epoch + 1 && s.proposals[subject].decision.leaf in s'.revokedLeaves)
  {
    hide Core, Boundary, LandedAll;
    AdvanceValue(c, Consumed(s, subject));
    BoundaryFields(c, Consumed(s, subject));
    assert Consumed(s, subject).staged.revocations[|s.staged.revocations|] == s.proposals[subject].decision.leaf;
  }

  // ---- Migrating ----

  /** A consent presented for a spend and successor against a class's tree and the revocations. */
  predicate Consents(c: Scheme, s: State, k: Bytes32, proof: StubProof<MigrationWitness>, spend: Bytes32, successor: Bytes32)
    requires k in s.classes
  {
    VerifyMigration(c, proof, MigrationPublic(s.agora, TreeRoot(c, s.classes[k].leaves), SetRoot(c, s.revocations), spend, successor))
  }

  /** In every run a migration is accepted exactly by a live agora with an epoch left, for a proof
      that holds against the live tree and revocations, a spend neither landed nor staged, and a
      successor the class has room for and neither holds nor has staged; and then it stages
      successor, spend and inbox for the next place. */
  lemma MigrateAnswer(c: Scheme, w: World, k: Bytes32, proof: StubProof<MigrationWitness>, spend: Bytes32, successor: Bytes32, inbox: Bytes32)
    requires Primitives(c) && Reachable(c, w) && w.s.epoch + 1 < U64
    ensures Migrate(c, w.s, k, proof, spend, successor, inbox) ==
            if !w.s.dissolved && k in w.s.classes && Consents(c, w.s, k, proof, spend, successor)
               && OrderOf(spend) !in w.s.spends && spend !in w.s.staged.spends && Stageable(c, w.s, k, successor)
            then (Staging(w.s, k, successor).(staged := Staging(w.s, k, successor).staged.(spends := w.s.staged.spends + [spend]),
                                              stagedInboxes := w.s.stagedInboxes[successor := inbox]),
                  Ok(Admitted(Admission(w.s.epoch + 1, NextPlace(w.s, k)))))
            else (w.s, Err(Rejected))
  {
    hide Reachable, Sound, Core, VerifyMigration, RootsIn, StageAdmission, Room, NextPlace, OrderOf;
    ReachableIsSound(c, w);
    SoundHasCore(c, w);
    StagingAnswer(c, w.s, k, successor);
    if k in w.s.classes {
      MigrationRoots(c, w, k, spend, successor);
    }
  }

  lemma MigrationRoots(c: Scheme, w: World, k: Bytes32, spend: Bytes32, successor: Bytes32)
    requires Sound(c, w) && k in w.s.classes
    ensures RootsIn(w.s, w.s.epoch, k).Some?
    ensures MigrationPublicOf(w.s, RootsIn(w.s, w.s.epoch, k).value, spend, successor)
         == MigrationPublic(w.s.agora, TreeRoot(c, w.s.classes[k].leaves), SetRoot(c, w.s.revocations), spend, successor)
  {
    hide Core, Growing, TreeRoot, SetRoot, ReceiptsOk, EvidenceOk, VotesOk, ApprovalsOk, CountsOk;
    HereRoots(c, w, k);
    RootsNow(c, w.g.genesis, w.g.past, w.s, k);
  }

  // ---- Access ----

  /** The statement an access proof makes for a challenge. */
  function AccessPublic(c: Scheme, s: State, k: Bytes32, challenge: Bytes32): ChainPublic
    requires k in s.classes
  {
    ChainPublic(s.agora, s.epoch, TreeRoot(c, s.classes[k].leaves), SetRoot(c, s.revocations), SetRoot(c, s.spends),
                VerificationAccess(challenge))
  }

  /** In every run access is granted exactly for an outstanding challenge and a proof that holds for
      it against the live trees; and a challenge presented to a live agora is spent either way. */
  lemma RedeemAnswer(c: Scheme, w: World, k: Bytes32, proof: StubProof<ChainWitness>, challenge: Bytes32)
    requires Primitives(c) && Reachable(c, w)
    ensures RedeemAccess(c, w.s, k, proof, challenge).1 ==
            if !w.s.dissolved && challenge in w.s.challenges && k in w.s.classes && VerifyChain(c, proof, AccessPublic(c, w.s, k, challenge))
            then Ok(Granted(w.s.epoch)) else Err(Rejected)
    ensures RedeemAccess(c, w.s, k, proof, challenge).0
         == if w.s.dissolved then w.s else w.s.(challenges := w.s.challenges - {challenge})
  {
    hide Reachable, Sound, Core, VerifyChain;
    ReachableIsSound(c, w);
    RedeemBurns(c, w.s, k, proof, challenge);
    if RootsIn(w.s, w.s.epoch, k).Some? {
      NoRoots(c, w, k);
    }
    if k in w.s.classes {
      AccessRoots(c, w, k, challenge);
    }
    hide RootsIn;
  }

  lemma AccessRoots(c: Scheme, w: World, k: Bytes32, challenge: Bytes32)
    requires Sound(c, w) && k in w.s.classes
    ensures RootsIn(w.s, w.s.epoch, k).Some?
    ensures var roots := RootsIn(w.s, w.s.epoch, k).value;
            ChainPublic(w.s.agora, w.s.epoch, roots.class_, roots.revocation, roots.spend, VerificationAccess(challenge))
            == AccessPublic(c, w.s, k, challenge)
  {
    hide Core, Growing, TreeRoot, SetRoot, ReceiptsOk, EvidenceOk, VotesOk, ApprovalsOk, CountsOk;
    HereRoots(c, w, k);
    RootsNow(c, w.g.genesis, w.g.past, w.s, k);
  }

  // ---- Inboxes ----

  /** An instruction is taken exactly when its proof holds and it retires the very key its leaf is
      registered under, or renews a leaf some class holds and no decision revoked. */
  lemma CertificateAnswer(c: Scheme, s: State, leaf: Bytes32, inbox: Bytes32, action: InboxAction, proof: StubProof<InboxWitness>)
    ensures InboxCertificate(c, s, leaf, inbox, action, proof) ==
            if s.dissolved || !VerifyInbox(c, proof, InboxPublic(s.agora, leaf, inbox, action)) then (s, Err(Rejected))
            else if action == InboxAction.Retire && leaf in s.inboxes && s.inboxes[leaf].key == inbox
            then (s.(inboxes := s.inboxes - {leaf}), Ok(Recorded))
            else if action == InboxAction.Renew && leaf !in s.revokedLeaves
                    && (exists k :: k in s.classes && leaf in s.classes[k].positions)
            then (s.(inboxes := s.inboxes[leaf := InboxRecord(inbox, s.epoch)]), Ok(Recorded))
            else (s, Err(Rejected))
  {
    hide VerifyInbox;
  }

  // ---- The boundary ----

  /** The exclusion entry a digest gives, by its value. */
  function Entry(key: Bytes32): nat {
    LE(key) % SPAN253
  }

  /** The state after a boundary: the next epoch, everything open closed, everything staged taken, each
      staged spend and each staged revocation's entry added to its own set and nothing else, and
      everything decided, pending or secret as it was. */
  ghost predicate TurnedInto(c: Scheme, s: State, s': State) {
    && s'.epoch == s.epoch + 1
    && s'.sessions == map[] && s'.proposals == map[] && s'.challenges == {}
    && s'.staged == NOTHING_STAGED
    && (forall n :: n in s'.spends <==> n in s.spends || exists x :: x in s.staged.spends && n == Entry(x))
    && (forall n :: n in s'.revocations <==> n in s.revocations || exists x :: x in s.staged.revocations && n == Entry(RevocationKey(c, x)))
    && (forall x :: x in s'.revokedLeaves <==> x in s.revokedLeaves || x in s.staged.revocations)
    && s'.classes.Keys == s.classes.Keys
    && (forall k :: k in s.classes ==>
          && s'.classes[k].leaves == s.classes[k].leaves + Padded(StagedFor(s.staged.admissions, k))
          && s'.classes[k].policy == s.classes[k].policy && s'.classes[k].version == s.classes[k].version)
    && s'.quorum == s.quorum && s'.horizon == s.horizon && s'.pending == s.pending && s'.agora == s.agora
    && s'.tagSecret == s.tagSecret && s'.statementSeed == s.statementSeed && !s'.dissolved
  }

  lemma SetsTurn(c: Scheme, s: State, n: nat)
    ensures n in SpendKeys(s.staged.spends) <==> exists x :: x in s.staged.spends && n == Entry(x)
    ensures n in RevocationKeys(c, s.staged.revocations) <==> exists x :: x in s.staged.revocations && n == Entry(RevocationKey(c, x))
  {
    hide OrderOf, RevocationKey, Entry;
    forall x: Bytes32 ensures OrderOf(x) == Entry(x) {
      EntryIs(x);
    }
    var spends, revocations := s.staged.spends, s.staged.revocations;
    if x :| x in spends && n == Entry(x) {
      var i :| 0 <= i < |spends| && spends[i] == x;
      assert OrderOf(spends[i]) in SpendKeys(spends);
    }
    if x :| x in revocations && n == Entry(RevocationKey(c, x)) {
      var i :| 0 <= i < |revocations| && revocations[i] == x;
      assert OrderOf(RevocationKey(c, revocations[i])) in RevocationKeys(c, revocations);
    }
  }

  lemma EntryIs(key: Bytes32)
    ensures OrderOf(key) == Entry(key)
  {
    hide OrderOf;
    TruncationIsReduction(key);
  }

  lemma BoundaryTurns(c: Scheme, s: State)
    requires Primitives(c) && Core(c, s) && CanCross(s)
    ensures TurnedInto(c, s, Boundary(c, s))
  {
    hide Core, Boundary, LandedAll, SpendKeys, RevocationKeys, Entry, StagedFor, Padded;
    BoundaryFields(c, s);
    AllLands(c, s);
    forall n: nat
      ensures n in SpendKeys(s.staged.spends) <==> exists x :: x in s.staged.spends && n == Entry(x)
      ensures n in RevocationKeys(c, s.staged.revocations) <==> exists x :: x in s.staged.revocations && n == Entry(RevocationKey(c, x))
    {
      SetsTurn(c, s, n);
    }
    forall k | k in s.classes ensures GrewBy(s.classes[k], LandedAll(c, s).classes[k], StagedFor(s.staged.admissions, k)) {
      LandedGrows(c, s, k);
    }
  }

  /** In every run a boundary is crossed exactly by a live agora with an epoch left, and takes
      everything staged with it; past the last epoch what was staged is lost and the epoch stays. */
  lemma AdvanceAnswer(c: Scheme, w: World)
    requires Primitives(c) && Reachable(c, w)
    ensures var (s', answer) := AdvanceEpoch(c, w.s);
            if w.s.dissolved then s' == w.s && answer == Err(Rejected)
            else if w.s.epoch + 1 >= U64 then s' == w.s.(staged := NOTHING_STAGED) && answer == Err(Unavailable)
            else TurnedInto(c, w.s, s') && answer == Ok(Advanced)
  {
    hide Reachable, Sound, Core, AdvanceEpoch, TurnedInto, Boundary;
    ReachableIsSound(c, w);
    SoundHasCore(c, w);
    AdvanceValue(c, w.s);
    if CanCross(w.s) {
      BoundaryTurns(c, w.s);
    }
  }
}
