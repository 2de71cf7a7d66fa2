/** What a counted ballot was cast for: its session's candidate, as long as no session identifier is
    opened twice in an epoch. */
module OperatorSessions {
  import opened Wrappers
  import opened Bytes
  import opened Crypto
  import opened Exclusion
  import opened Statements
  import opened Decisions
  import opened Operator
  import opened OperatorLayout
  import opened OperatorRuns
  import opened OperatorBallots
  import opened OperatorReceipts
  import opened OperatorSafety
  import opened OperatorMembership
  import opened OperatorMigrations
  import opened BatchTree
  import opened Polls

  // ---- What a step does to the open sessions ----

  /** Every session after was open before, just so. */
  ghost predicate SessionsWithin(s: State, s': State) {
    forall id :: id in s'.sessions ==> id in s.sessions && s'.sessions[id] == s.sessions[id]
  }

  predicate Reopens(c: Scheme, s: State, step: Step, id: Bytes32) {
    step.Start? && step.id == id && Apply(c, s, step).1.Ok?
  }

  predicate Attests(c: Scheme, s: State, step: Step, id: Bytes32) {
    step.Attest? && step.session == id && Apply(c, s, step).1.Ok?
  }

  /** Where one session after a step comes from: unchanged, one ballot fuller, or just opened. */
  ghost predicate SessionFrom(c: Scheme, s: State, step: Step, s': State, id: Bytes32) {
    id in s'.sessions ==>
      || (id in s.sessions && s'.sessions[id] == s.sessions[id])
      || (Attests(c, s, step, id) && id in s.sessions
          && s'.sessions[id] == s.sessions[id].(nullifiers := s.sessions[id].nullifiers + {step.nullifier}))
      || (Reopens(c, s, step, id) && s'.sessions[id] == Session(step.candidate, step.target, {}))
  }

  lemma AdvanceWithin(c: Scheme, s: State)
    requires Primitives(c) && Core(c, s)
    ensures SessionsWithin(s, AdvanceEpoch(c, s).0)
  {
    hide Core, Boundary, LandedAll;
    AdvanceValue(c, s);
    BoundaryFields(c, s);
  }

  lemma EffectWithin(c: Scheme, s: State, d: Decision)
    requires Primitives(c) && Core(c, s)
    ensures SessionsWithin(s, Effect(c, s, d))
  {
    hide Core, AdvanceEpoch;
    AdvanceWithin(c, s);
  }

  lemma ExecuteWithin(c: Scheme, s: State, subject: Bytes32)
    requires Primitives(c) && Core(c, s)
    ensures SessionsWithin(s, Execute(c, s, subject).0)
  {
    hide Core, Effect, Execute;
    if Executes(s, subject) {
      ConsumedKeeps(c, s, subject);
      ExecuteValue(c, s, subject);
      EffectWithin(c, Consumed(s, subject), s.proposals[subject].decision);
    } else {
      ExecuteRefused(c, s, subject);
    }
  }

  lemma ExecuteRefused(c: Scheme, s: State, subject: Bytes32)
    requires !Executes(s, subject)
    ensures Execute(c, s, subject).0 == s
  {
  }

  lemma FinalizeWithin(c: Scheme, s: State, id: Bytes32)
    ensures SessionsWithin(s, VouchFinalize(c, s, id).0)
  {
    hide Remaining, StagedIn;
  }

  lemma MigrateWithin(c: Scheme, s: State, k: Bytes32, proof: StubProof<MigrationWitness>,
                      spend: Bytes32, successor: Bytes32, inbox: Bytes32)
    ensures SessionsWithin(s, Migrate(c, s, k, proof, spend, successor, inbox).0)
  {
    hide Migrate;
    MigrateOnly(c, s, k, proof, spend, successor, inbox);
  }

  lemma OthersWithin(c: Scheme, s: State, a: Bytes32, b: Bytes32, d: Decision)
    ensures SessionsWithin(s, CredentialsInit(s, a, b).0)
    ensures SessionsWithin(s, IssueChallenge(s, a).0)
    ensures SessionsWithin(s, Propose(c, s, d, a, b).0)
  {
  }

  lemma ProvingWithin(c: Scheme, s: State, id: Bytes32, proof: StubProof<ChainWitness>, n: Bytes32)
    ensures SessionsWithin(s, Approve(c, s, id, proof, n).0)
    ensures SessionsWithin(s, RedeemAccess(c, s, id, proof, n).0)
  {
    hide RedeemAccess, VerifyChain, RootsIn;
    RedeemBurns(c, s, id, proof, n);
  }

  lemma CertifyingWithin(c: Scheme, s: State, leaf: Bytes32, inbox: Bytes32, action: InboxAction, proof: StubProof<InboxWitness>)
    ensures SessionsWithin(s, InboxCertificate(c, s, leaf, inbox, action, proof).0)
  {
    hide VerifyInbox, Landed;
  }

  /** No step but opening and attesting changes a session that it leaves open. */
  lemma StepWithin(c: Scheme, s: State, step: Step)
    requires Primitives(c) && Core(c, s) && !step.Start? && !step.Attest?
    ensures SessionsWithin(s, Apply(c, s, step).0)
  {
    hide Core, SessionsWithin, CredentialsInit, VouchFinalize, Migrate, Propose, Execute, InboxCertificate,
      AdvanceEpoch, IssueChallenge, RedeemAccess, Approve;
    match step {
      case Init(commitment, inbox) => OthersWithin(c, s, commitment, inbox, Dissolution);
      case Approving(id, proof, n) => ProvingWithin(c, s, id, proof, n);
      case Finalize(id) => FinalizeWithin(c, s, id);
      case Migrating(k, proof, spend, successor, inbox) => MigrateWithin(c, s, k, proof, spend, successor, inbox);
      case Proposing(d, k, nonce) => OthersWithin(c, s, k, nonce, d);
      case Executing(subject) => ExecuteWithin(c, s, subject);
      case Certifying(leaf, inbox, action, proof) => CertifyingWithin(c, s, leaf, inbox, action, proof);
      case Advancing => AdvanceWithin(c, s);
      case Challenging(entropy) => OthersWithin(c, s, entropy, entropy, Dissolution);
      case Redeeming(k, proof, challenge) => ProvingWithin(c, s, k, proof, challenge);
    }
  }

  lemma StartSessions(c: Scheme, s: State, candidate: Bytes32, target: Bytes32, opened_: Bytes32, id: Bytes32)
    ensures SessionFrom(c, s, Step.Start(candidate, target, opened_), StartVouch(c, s, candidate, target, opened_).0, id)
  {
    hide Remaining;
  }

  lemma AttestSessions(c: Scheme, s: State, session: Bytes32, proof: StubProof<ChainWitness>, n: Bytes32, id: Bytes32)
    ensures SessionFrom(c, s, Attest(session, proof, n), VouchAttest(c, s, session, proof, n).0, id)
  {
    hide VerifyChain, RootsIn;
  }

  lemma StepSessions(c: Scheme, s: State, step: Step, id: Bytes32)
    requires Primitives(c) && Core(c, s)
    ensures SessionFrom(c, s, step, Apply(c, s, step).0, id)
    ensures id in Apply(c, s, step).0.sessions ==> Apply(c, s, step).0.epoch == s.epoch
  {
    hide Core, StartVouch, VouchAttest, Crossing;
    if step.Start? {
      StartSessions(c, s, step.candidate, step.target, step.id, id);
    } else if step.Attest? {
      AttestSessions(c, s, step.session, step.proof, step.nullifier, id);
    } else {
      hide Apply;
      StepWithin(c, s, step);
    }
    hide Apply;
    StepEpoch(c, s, step);
    if Crossing(s, step).Some? {
      CrossingCloses(c, s, step);
    }
  }

  // ---- Who a counted ballot was cast for ----

  /** The world a run has reached after its first few steps. */
  function At(c: Scheme, w: World, steps: seq<Step>, j: nat): World
    requires j <= |steps|
  {
    Run(c, w, steps[..j])
  }

  lemma AtPrefix(c: Scheme, w: World, steps: seq<Step>, i: nat, j: nat)
    requires i <= j <= |steps|
    ensures At(c, w, steps[..j], i) == At(c, w, steps, i)
  {
    hide Run;
    assert steps[..j][..i] == steps[..i];
  }

  /** One step of a run took this nullifier into this session, while it named the candidate and
      class the session names at the end, in the epoch of the end, on the ballot recorded for it. */
  ghost predicate CastAt(c: Scheme, w: World, steps: seq<Step>, j: nat, id: Bytes32, n: Bytes32) {
    var now := Run(c, w, steps);
    && j < |steps|
    && Attests(c, At(c, w, steps, j).s, steps[j], id) && steps[j].nullifier == n
    && At(c, w, steps, j).s.epoch == now.s.epoch
    && id in At(c, w, steps, j).s.sessions && id in now.s.sessions
    && At(c, w, steps, j).s.sessions[id].candidate == now.s.sessions[id].candidate
    && At(c, w, steps, j).s.sessions[id].target == now.s.sessions[id].target
    && (id, n) in now.g.votes && now.g.votes[(id, n)] == steps[j].proof.material
  }

  lemma StepVotes(c: Scheme, w: World, step: Step, id: Bytes32, n: Bytes32)
    ensures Attests(c, w.s, step, id) && step.nullifier == n ==>
              (id, n) in Next(c, w, step).g.votes && Next(c, w, step).g.votes[(id, n)] == step.proof.material
    ensures !(Attests(c, w.s, step, id) && step.nullifier == n) && (id, n) in w.g.votes ==>
              (id, n) in Next(c, w, step).g.votes && Next(c, w, step).g.votes[(id, n)] == w.g.votes[(id, n)]
  {
    hide Apply, Issued, PastAfter, ApprovalsAfter;
  }

  lemma CastStays(c: Scheme, w: World, steps: seq<Step>, j: nat, id: Bytes32, n: Bytes32)
    requires |steps| > 0 && CastAt(c, w, steps[..|steps| - 1], j, id, n)
    requires var before, now := Run(c, w, steps[..|steps| - 1]), Run(c, w, steps);
             && id in now.s.sessions && now.s.epoch == before.s.epoch
             && now.s.sessions[id].candidate == before.s.sessions[id].candidate
             && now.s.sessions[id].target == before.s.sessions[id].target
    requires !(Attests(c, Run(c, w, steps[..|steps| - 1]).s, steps[|steps| - 1], id) && steps[|steps| - 1].nullifier == n)
    ensures CastAt(c, w, steps, j, id, n)
  {
    hide Next, Attests, Apply;
    var init, step := steps[..|steps| - 1], steps[|steps| - 1];
    AtPrefix(c, w, steps, j, |steps| - 1);
    assert init[j] == steps[j];
    StepVotes(c, Run(c, w, init), step, id, n);
  }

  /** Every ballot a session counts was cast while the session named the candidate it names now. */
  lemma {:induction false} BallotsNameCandidate(c: Scheme, w: World, steps: seq<Step>, id: Bytes32, n: Bytes32)
    requires Primitives(c) && Sound(c, w) && w.s.sessions == map[]
    requires id in Run(c, w, steps).s.sessions && n in Run(c, w, steps).s.sessions[id].nullifiers
    ensures exists j :: CastAt(c, w, steps, j, id, n)
  {
    hide Sound, Next, CastAt, Attests, Reopens, SessionFrom;
    if |steps| > 0 {
      var init, step := steps[..|steps| - 1], steps[|steps| - 1];
      var before := Run(c, w, init);
      RunKeepsSound(c, w, init);
      SoundHasCore(c, before);
      if Attests(c, before.s, step, id) && AttestedNullifier(step) == n {
        CastNow(c, w, steps, id, n);
      } else {
        CountedBefore(c, before, step, id, n);
        BallotsNameCandidate(c, w, init, id, n);
        var j :| CastAt(c, w, init, j, id, n);
        AttestedIs(c, before.s, step, id);
        CastStays(c, w, steps, j, id, n);
      }
    }
  }

  /** A ballot the last step took in. */
  lemma CastNow(c: Scheme, w: World, steps: seq<Step>, id: Bytes32, n: Bytes32)
    requires |steps| > 0
    requires Attests(c, Run(c, w, steps[..|steps| - 1]).s, steps[|steps| - 1], id) && AttestedNullifier(steps[|steps| - 1]) == n
    ensures CastAt(c, w, steps, |steps| - 1, id, n)
  {
    hide Next, Attests;
    var before, step := Run(c, w, steps[..|steps| - 1]), steps[|steps| - 1];
    AttestOpen(c, before.s, step, id);
    NextFields(c, before, step);
    StepVotes(c, before, step, id, n);
    assert At(c, w, steps, |steps| - 1) == before;
  }

  /** A ballot counted after a step that did not take it in was counted before, for the same
      session. */
  lemma CountedBefore(c: Scheme, before: World, step: Step, id: Bytes32, n: Bytes32)
    requires Primitives(c) && Core(c, before.s)
    requires id in Next(c, before, step).s.sessions && n in Next(c, before, step).s.sessions[id].nullifiers
    requires !(Attests(c, before.s, step, id) && AttestedNullifier(step) == n)
    ensures id in before.s.sessions && n in before.s.sessions[id].nullifiers
    ensures var now := Next(c, before, step);
            && now.s.epoch == before.s.epoch
            && now.s.sessions[id].candidate == before.s.sessions[id].candidate
            && now.s.sessions[id].target == before.s.sessions[id].target
  {
    hide Core, Next, Attests, Reopens;
    NextFields(c, before, step);
    StepSessions(c, before.s, step, id);
    AttestedIs(c, before.s, step, id);
  }

  function AttestedNullifier(step: Step): Bytes32 {
    if step.Attest? then step.nullifier else ZERO32
  }

  lemma AttestedIs(c: Scheme, s: State, step: Step, id: Bytes32)
    ensures Attests(c, s, step, id) ==> step.Attest? && AttestedNullifier(step) == step.nullifier
  {
    hide Apply;
  }

  lemma AttestOpen(c: Scheme, s: State, step: Step, id: Bytes32)
    requires Attests(c, s, step, id)
    ensures step.Attest? && id in s.sessions && id in Apply(c, s, step).0.sessions && Apply(c, s, step).0.epoch == s.epoch
    ensures Apply(c, s, step).0.sessions[id].candidate == s.sessions[id].candidate
    ensures Apply(c, s, step).0.sessions[id].target == s.sessions[id].target
  {
    hide VerifyChain, RootsIn;
  }

  lemma SoundHasCore(c: Scheme, w: World)
    requires Sound(c, w)
    ensures Core(c, w.s)
  {
    hide Core;
  }

  // ---- Identifiers opened once ----

  /** One step of a run opened a session under this identifier, in the epoch of the end. */
  ghost predicate OpensAt(c: Scheme, w: World, steps: seq<Step>, j: nat, id: Bytes32) {
    j < |steps| && Reopens(c, At(c, w, steps, j).s, steps[j], id) && At(c, w, steps, j).s.epoch == Run(c, w, steps).s.epoch
  }

  /** An open session was opened in this epoch, for the candidate and class it names. */
  lemma {:induction false} SessionOpened(c: Scheme, w: World, steps: seq<Step>, id: Bytes32) returns (j: nat)
    requires Primitives(c) && Sound(c, w) && w.s.sessions == map[] && id in Run(c, w, steps).s.sessions
    ensures OpensAt(c, w, steps, j, id) && steps[j].Start?
    ensures steps[j].candidate == Run(c, w, steps).s.sessions[id].candidate && steps[j].target == Run(c, w, steps).s.sessions[id].target
  {
    hide Sound, Next, OpensAt, Reopens;
    var init, step := steps[..|steps| - 1], steps[|steps| - 1];
    var before := Run(c, w, init);
    RunKeepsSound(c, w, init);
    SoundHasCore(c, before);
    OpenBefore(c, before, step, id);
    if JustOpened(c, before, step, id) {
      j := |init|;
      OpensNow(c, w, steps, id);
    } else {
      j := SessionOpened(c, w, init, id);
      OpensStays(c, w, steps, j, id);
    }
  }

  /** The session after a step is the one the step opened. */
  ghost predicate JustOpened(c: Scheme, before: World, step: Step, id: Bytes32) {
    && step.Start? && Reopens(c, before.s, step, id)
    && id in Next(c, before, step).s.sessions
    && Next(c, before, step).s.sessions[id] == Session(step.candidate, step.target, {})
  }

  lemma OpenBefore(c: Scheme, before: World, step: Step, id: Bytes32)
    requires Primitives(c) && Core(c, before.s) && id in Next(c, before, step).s.sessions
    ensures var now := Next(c, before, step);
            && now.s.epoch == before.s.epoch
            && (!JustOpened(c, before, step, id) ==>
                  && id in before.s.sessions
                  && now.s.sessions[id].candidate == before.s.sessions[id].candidate
                  && now.s.sessions[id].target == before.s.sessions[id].target)
  {
    hide Core, Next, Attests;
    NextFields(c, before, step);
    StepSessions(c, before.s, step, id);
  }

  lemma OpensNow(c: Scheme, w: World, steps: seq<Step>, id: Bytes32)
    requires |steps| > 0 && JustOpened(c, Run(c, w, steps[..|steps| - 1]), steps[|steps| - 1], id)
    requires Run(c, w, steps).s.epoch == Run(c, w, steps[..|steps| - 1]).s.epoch
    ensures OpensAt(c, w, steps, |steps| - 1, id)
  {
    hide Next, Reopens;
    assert At(c, w, steps, |steps| - 1) == Run(c, w, steps[..|steps| - 1]);
  }

  lemma OpensStays(c: Scheme, w: World, steps: seq<Step>, j: nat, id: Bytes32)
    requires |steps| > 0 && OpensAt(c, w, steps[..|steps| - 1], j, id)
    requires Run(c, w, steps).s.epoch == Run(c, w, steps[..|steps| - 1]).s.epoch
    ensures OpensAt(c, w, steps, j, id) && steps[..|steps| - 1][j] == steps[j] && steps[j].Start?
  {
    hide Run, Apply;
    AtPrefix(c, w, steps, j, |steps| - 1);
  }

  /** This identifier was opened once this epoch. */
  ghost predicate OpenedOnce(c: Scheme, w: World, steps: seq<Step>, id: Bytes32) {
    forall a, b :: OpensAt(c, w, steps, a, id) && OpensAt(c, w, steps, b, id) ==> a == b
  }

  /** Opened once this epoch, an identifier's ballots are for one candidate: whatever was accepted
      under it this epoch was cast while its session named the candidate it names now. */
  lemma CastForNoOther(c: Scheme, w: World, steps: seq<Step>, id: Bytes32, j: nat)
    requires Primitives(c) && Sound(c, w) && w.s.sessions == map[] && id in Run(c, w, steps).s.sessions
    requires OpenedOnce(c, w, steps, id)
    requires j < |steps| && Attests(c, At(c, w, steps, j).s, steps[j], id) && At(c, w, steps, j).s.epoch == Run(c, w, steps).s.epoch
    ensures id in At(c, w, steps, j).s.sessions
    ensures At(c, w, steps, j).s.sessions[id].candidate == Run(c, w, steps).s.sessions[id].candidate
    ensures At(c, w, steps, j).s.sessions[id].target == Run(c, w, steps).s.sessions[id].target
  {
    hide Sound, Run, Reopens;
    AttestOpen(c, At(c, w, steps, j).s, steps[j], id);
    var a := SessionOpened(c, w, steps, id);
    var b := SessionOpened(c, w, steps[..j], id);
    AtPrefix(c, w, steps, b, j);
    assert steps[..j][b] == steps[b];
    assert OpensAt(c, w, steps, b, id);
  }

  lemma GenesisHasNoSessions(c: Scheme, start: OperatorSafety.Start)
    requires Primitives(c) && Founds(c, start)
    ensures Sound(c, Genesis(c, start)) && Genesis(c, start).s.sessions == map[]
  {
    hide Sound, LogSnapshot, SnapshotOf, FoundClasses, LandFounder, RootsOf, TreesOf;
    GenesisSound(c, start);
    var f := start.founding;
    CreatedFields(c, f, start.tagSecret, start.statement, start.logSeed);
  }

  /** In every run, each ballot an admission counts was cast while the session named the leaf it
      admits and the class it admits it to; and if the identifier was opened once this epoch, nothing
      accepted under it this epoch was cast for another. */
  lemma AdmissionNamesCandidate(c: Scheme, start: OperatorSafety.Start, steps: seq<Step>, id: Bytes32, n: Bytes32, j: nat)
    requires Primitives(c) && Founds(c, start)
    requires var w := Run(c, Genesis(c, start), steps);
             VouchFinalize(c, w.s, id).1.Ok? && n in w.s.sessions[id].nullifiers
    ensures exists i :: CastAt(c, Genesis(c, start), steps, i, id, n)
    ensures OpenedOnce(c, Genesis(c, start), steps, id)
            && j < |steps| && Attests(c, At(c, Genesis(c, start), steps, j).s, steps[j], id)
            && At(c, Genesis(c, start), steps, j).s.epoch == Run(c, Genesis(c, start), steps).s.epoch ==>
              && id in At(c, Genesis(c, start), steps, j).s.sessions
              && At(c, Genesis(c, start), steps, j).s.sessions[id].candidate
                 == Run(c, Genesis(c, start), steps).s.sessions[id].candidate
  {
    hide Sound, Run, CastAt, OpenedOnce, Attests, Founds, Genesis, StageAdmission;
    var w := Genesis(c, start);
    GenesisHasNoSessions(c, start);
    BallotsNameCandidate(c, w, steps, id, n);
    if OpenedOnce(c, w, steps, id) && j < |steps| && Attests(c, At(c, w, steps, j).s, steps[j], id)
       && At(c, w, steps, j).s.epoch == Run(c, w, steps).s.epoch {
      CastForNoOther(c, w, steps, id, j);
    }
  }

  // ---- Identifiers opened again ----

  /** The proof behind a counted ballot, as it was presented. */
  function Recorded(c: Scheme, w: World, id: Bytes32, n: Bytes32): StubProof<ChainWitness>
    requires id in w.s.sessions && w.s.sessions[id].target in w.s.classes && (id, n) in w.g.votes
    requires RootsIn(w.s, w.s.epoch, w.s.classes[w.s.sessions[id].target].policy.voucherClass).Some?
  {
    var roots := RootsIn(w.s, w.s.epoch, w.s.classes[w.s.sessions[id].target].policy.voucherClass).value;
    StubProof(ChainBinding(c, VouchPublic(w.s, roots, id, n)), w.g.votes[(id, n)])
  }

  /** A counted ballot's proof still verifies, for its session's identifier and voucher class. */
  lemma RecordedVerifies(c: Scheme, w: World, id: Bytes32, n: Bytes32)
    requires Primitives(c) && Sound(c, w) && id in w.s.sessions && w.s.sessions[id].target in w.s.classes
    requires n in w.s.sessions[id].nullifiers
    ensures (id, n) in w.g.votes
    ensures var k := w.s.classes[w.s.sessions[id].target].policy.voucherClass;
            && RootsIn(w.s, w.s.epoch, k).Some?
            && VerifyChain(c, Recorded(c, w, id, n), VouchPublic(w.s, RootsIn(w.s, w.s.epoch, k).value, id, n))
  {
    hide Core, Growing, ChainHolds, ChainType, ChainBinding, TreeRoot, SetRoot, Tallied, ReceiptsOk, EvidenceOk;
    VouchPollIs(c, w.s, id);
    SessionBacked(c, w, id);
    var k := w.s.classes[w.s.sessions[id].target].policy.voucherClass;
    TalliedHas(c, VouchPoll(GroundOf(w.s), w.s.sessions[id].target, id), w.g.votes, w.s.sessions[id].nullifiers, n);
    HereRoots(c, w, k);
    RootsNow(c, w.g.genesis, w.g.past, w.s, k);
  }

  lemma TalliedHas(c: Scheme, p: Poll, votes: map<(Bytes32, Bytes32), ChainWitness>, ns: set<Bytes32>, n: Bytes32)
    requires Tallied(c, p, votes, ns) && n in ns
    ensures (p.subject, n) in votes && Ballot(c, p, n, votes[(p.subject, n)])
  {
    hide Ballot;
    assert n in Accepted(c, p, BallotsFor(votes, p.subject, ns));
  }

  /** What a new session asks its attestations against: its own identifier, and its target's voucher
      class. */
  lemma ReopenedSession(c: Scheme, s: State, step: Step, id: Bytes32)
    requires Reopens(c, s, step, id)
    ensures step.Start? && step.id == id && step.target in s.classes
    ensures var s' := Apply(c, s, step).0;
            && s' == s.(sessions := s.sessions[id := Session(step.candidate, step.target, {})])
            && !s'.dissolved
  {
    hide Remaining;
  }

  /** When a counted ballot counts again, exactly: presented again right after any step it is accepted
      only if that step opened another session under its identifier; and is, if the new session's
      class asks the same voucher class. So a ballot cast for one candidate counts for another
      exactly where an identifier is reused. */
  lemma ReplayExactly(c: Scheme, w: World, id: Bytes32, n: Bytes32, step: Step)
    requires Primitives(c) && Sound(c, w) && id in w.s.sessions && w.s.sessions[id].target in w.s.classes
    requires n in w.s.sessions[id].nullifiers
    requires (id, n) in w.g.votes && RootsIn(w.s, w.s.epoch, w.s.classes[w.s.sessions[id].target].policy.voucherClass).Some?
    requires step.Start? && step.target in w.s.classes ==>
               w.s.classes[step.target].policy.voucherClass == w.s.classes[w.s.sessions[id].target].policy.voucherClass
    ensures VouchAttest(c, Apply(c, w.s, step).0, id, Recorded(c, w, id, n), n).1.Ok? <==> Reopens(c, w.s, step, id)
    ensures Reopens(c, w.s, step, id) ==> Apply(c, w.s, step).0.sessions[id].candidate == step.candidate
  {
    hide Sound, Apply, Reopens, Attests, VerifyChain, RootsIn, Recorded;
    var s' := Apply(c, w.s, step).0;
    SoundHasCore(c, w);
    StepSessions(c, w.s, step, id);
    if Reopens(c, w.s, step, id) {
      ReopenedSession(c, w.s, step, id);
      RecordedVerifies(c, w, id, n);
      ReopenedRoots(w.s, s', w.s.classes[w.s.sessions[id].target].policy.voucherClass);
    }
  }

  lemma ReopenedRoots(s: State, s': State, k: Bytes32)
    requires s' == s.(sessions := s'.sessions)
    ensures RootsIn(s', s'.epoch, k) == RootsIn(s, s.epoch, k)
  {
  }
}
