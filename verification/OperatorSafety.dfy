/** Safety over every run of the operator, from any consistent founding through any steps
    whatever, accepted or refused. */
module OperatorSafety {
  import opened Wrappers
  import opened Bytes
  import opened Crypto
  import opened BatchTree
  import opened Exclusion
  import opened Statements
  import opened Decisions
  import opened Operator
  import opened OperatorLayout
  import opened OperatorRuns
  import opened OperatorBallots
  import opened OperatorReceipts
  import opened OperatorMigrations
  import opened OperatorLog
  import opened Counting
  import opened Polls
  import Log

  // ---- Runs ----

  datatype Start = Start(founding: Founding, tagSecret: Bytes32, statement: Bytes32, logSeed: Option<Bytes32>)

  /** A founding the operator accepts, at an epoch that exists, naming no founder class twice. */
  ghost predicate Founds(c: Scheme, start: Start) {
    && start.founding.genesis < U64
    && DistinctIds(start.founding.founderClasses)
    && Created(c, start.founding, start.tagSecret, start.statement, start.logSeed).Ok?
  }

  ghost function Genesis(c: Scheme, start: Start): World
    requires Founds(c, start)
  {
    var s := Created(c, start.founding, start.tagSecret, start.statement, start.logSeed).value;
    World(s, Ledger(s.epoch, set k | k in start.founding.founderClasses, map[s.epoch := TreesOf(s)], map[], map[], []))
  }

  function Run(c: Scheme, w: World, steps: seq<Step>): World {
    if |steps| == 0 then w else Next(c, Run(c, w, steps[..|steps| - 1]), steps[|steps| - 1])
  }

  ghost predicate Reachable(c: Scheme, w: World) {
    exists start, steps :: Founds(c, start) && w == Run(c, Genesis(c, start), steps)
  }

  lemma {:induction false} RunAppends(c: Scheme, w: World, steps: seq<Step>, more: seq<Step>)
    ensures Run(c, w, steps + more) == Run(c, Run(c, w, steps), more)
  {
    hide Next;
    if |more| > 0 {
      RunAppends(c, w, steps, more[..|more| - 1]);
      assert (steps + more)[..|steps + more| - 1] == steps + more[..|more| - 1];
    } else {
      assert steps + more == steps;
    }
  }

  /** Whatever follows a reachable world is reachable. */
  lemma RunReachable(c: Scheme, w: World, more: seq<Step>)
    requires Reachable(c, w)
    ensures Reachable(c, Run(c, w, more))
  {
    hide Next, Founds, Run, Genesis;
    var start, steps :| Founds(c, start) && w == Run(c, Genesis(c, start), steps);
    RunAppends(c, Genesis(c, start), steps, more);
  }

  lemma NextIsRun(c: Scheme, w: World, step: Step)
    ensures Next(c, w, step) == Run(c, w, [step])
  {
    hide Next;
    assert [step][..0] == [];
  }

  // ---- The invariant of every run ----

  ghost predicate Sound(c: Scheme, w: World) {
    && Core(c, w.s)
    && Covered(c, w.g.genesis, w.g.past, GroundOf(w.s))
    && Growing(w.g.past)
    && VotesOk(c, w)
    && ApprovalsOk(c, w)
    && ReceiptsOk(w)
    && EvidenceOk(c, w)
    && SpendsDistinct(w.g.receipts)
    && CountsOk(w)
    && LogOk(c, w.s)
  }

  lemma StepKeepsSound(c: Scheme, w: World, step: Step)
    requires Primitives(c) && Sound(c, w)
    ensures Sound(c, Next(c, w, step))
  {
    hide Core, Covered, GroundOf, Growing, VotesOk, ApprovalsOk, ReceiptsOk, EvidenceOk, SpendsDistinct, CountsOk, LogOk,
      Next, Apply;
    NextFields(c, w, step);
    NextGenesis(c, w, step);
    StepKeepsCore(c, w.s, step);
    StepKeepsCovered(c, w, step);
    StepKeepsGrowing(c, w, step);
    StepKeepsVotes(c, w, step);
    StepKeepsApprovals(c, w, step);
    StepKeepsReceipts(c, w, step);
    StepKeepsEvidence(c, w, step);
    StepKeepsSpends(c, w, step);
    StepKeepsCounts(c, w, step);
    StepKeepsLog(c, w.s, step);
  }

  lemma NextGenesis(c: Scheme, w: World, step: Step)
    ensures Next(c, w, step).g.genesis == w.g.genesis
  {
    hide Apply, Issued;
  }

  lemma {:induction false} RunKeepsSound(c: Scheme, w: World, steps: seq<Step>)
    requires Primitives(c) && Sound(c, w)
    ensures Sound(c, Run(c, w, steps))
  {
    hide Sound, Next;
    if |steps| > 0 {
      RunKeepsSound(c, w, steps[..|steps| - 1]);
      StepKeepsSound(c, Run(c, w, steps[..|steps| - 1]), steps[|steps| - 1]);
    }
  }

  // ---- The founding ----

  /** A minted seed is a canonical secret. */
  lemma MintedIsCanonical(c: Scheme, entropy: Bytes32)
    requires Primitives(c)
    ensures PublicKey(c, MintSigningSecret(entropy)).Some?
  {
    var b := MintSigningSecret(entropy);
    SplitTop(b);
    Pow256Of32();
    assert Pow256(31) * 8 == SPAN251;
  }

  lemma CreatedFields(c: Scheme, f: Founding, tagSecret: Bytes32, statement: Bytes32, logSeed: Option<Bytes32>)
    requires Created(c, f, tagSecret, statement, logSeed).Ok?
    ensures var s := Created(c, f, tagSecret, statement, logSeed).value;
            && s.epoch == f.genesis && s.agora == f.agora && !s.dissolved
            && s.sessions == map[] && s.proposals == map[] && s.staged == NOTHING_STAGED
            && s.revocations == {} && s.spends == {}
            && s.statementSeed == MintSigningSecret(statement)
            && LandFounder(c, FoundClasses(f.classes), f.founder, f.founderClasses) == Some(s.classes)
            && s.history == map[s.epoch := RootsOf(c, TreesOf(s))]
            && s.log == LogSnapshot(c, EmptyLog(logSeed), s.epoch, SnapshotOf(c, s.classes, {}, {}))
  {
    hide LogSnapshot, RootsOf, SnapshotOf, FoundClasses, LandFounder;
    var s := Created(c, f, tagSecret, statement, logSeed).value;
    SnapshotIsRoots(c, s);
  }

  lemma GenesisCovered(c: Scheme, s: State)
    requires s.history == map[s.epoch := RootsOf(c, TreesOf(s))]
    ensures Covered(c, s.epoch, map[s.epoch := TreesOf(s)], GroundOf(s))
    ensures Growing(map[s.epoch := TreesOf(s)])
  {
    hide RootsOf, TreesOf;
    assert RootsThrough(c, map[s.epoch := TreesOf(s)]) == map[s.epoch := RootsOf(c, TreesOf(s))];
  }

  lemma GenesisCounts(c: Scheme, f: Founding, s: State, g: Ledger)
    requires Primitives(c) && DistinctIds(f.founderClasses)
    requires LandFounder(c, FoundClasses(f.classes), f.founder, f.founderClasses) == Some(s.classes)
    requires s.staged == NOTHING_STAGED && g.receipts == [] && g.founded == set k | k in f.founderClasses
    ensures CountsOk(World(s, g))
  {
    FoundedClasses(f.classes);
    FounderLands(c, FoundClasses(f.classes), f.founder, f.founderClasses);
    forall k | k in s.classes ensures Accounted(World(s, g), k) {
      assert Founded(FoundClasses(f.classes)[k], k, f.classes);
      assert Given([], k) == {} && Arrived([], k, s.epoch) == {};
    }
  }

  lemma GenesisLog(c: Scheme, s: State, statement: Bytes32, logSeed: Option<Bytes32>)
    requires Primitives(c) && !s.dissolved && s.statementSeed == MintSigningSecret(statement)
    requires s.log == LogSnapshot(c, EmptyLog(logSeed), s.epoch, SnapshotOf(c, s.classes, {}, {}))
    ensures LogOk(c, s)
  {
    hide LogSnapshot, SnapshotOf;
    var snap := SnapshotOf(c, s.classes, {}, {});
    MintedIsCanonical(c, statement);
    if logSeed.Some? {
      MintedIsCanonical(c, logSeed.value);
      SnapshotKept(c, EmptyLog(logSeed).value, 0, s.epoch, snap);
    } else {
      NoLog(c, s.epoch, snap);
    }
  }

  lemma NothingOpenIsBacked(c: Scheme, w: World)
    requires w.s.sessions == map[] && w.s.proposals == map[] && w.g.receipts == []
    ensures VotesOk(c, w) && ApprovalsOk(c, w) && ReceiptsOk(w) && EvidenceOk(c, w) && SpendsDistinct(w.g.receipts)
  {
    hide Tallied, Honoured, Evidenced, GroundOf;
  }

  lemma GenesisSound(c: Scheme, start: Start)
    requires Primitives(c) && Founds(c, start)
    ensures Sound(c, Genesis(c, start))
  {
    hide Core, Covered, GroundOf, Growing, VotesOk, ApprovalsOk, ReceiptsOk, EvidenceOk, SpendsDistinct, CountsOk, LogOk,
      Created, LogSnapshot, RootsOf, TreesOf, SnapshotOf, FoundClasses, LandFounder;
    var f, w := start.founding, Genesis(c, start);
    CreatedOk(c, f, start.tagSecret, start.statement, start.logSeed);
    CreatedFields(c, f, start.tagSecret, start.statement, start.logSeed);
    GenesisCovered(c, w.s);
    NothingOpenIsBacked(c, w);
    GenesisCounts(c, f, w.s, w.g);
    GenesisLog(c, w.s, start.statement, start.logSeed);
  }

  /** Every reachable world satisfies the invariant. */
  lemma ReachableIsSound(c: Scheme, w: World)
    requires Primitives(c) && Reachable(c, w)
    ensures Sound(c, w)
  {
    hide Sound, Founds;
    var start, steps :| Founds(c, start) && w == Run(c, Genesis(c, start), steps);
    GenesisSound(c, start);
    RunKeepsSound(c, Genesis(c, start), steps);
  }

  /** Every class has roots now. */
  lemma HereRoots(c: Scheme, w: World, k: Bytes32)
    requires Sound(c, w) && k in w.s.classes
    ensures RootsIn(w.s, w.s.epoch, k).Some?
  {
    hide Core, Growing, TreeRoot, SetRoot;
    assert w.s.epoch in w.g.past && k in TreesOf(w.s).leaves;
    assert k in RootsOf(c, TreesOf(w.s)).classRoots;
  }

  // ---- Quorums ----

  /** Where a vouch session's nullifiers speak from: its target's voucher class, now. */
  lemma VouchPollIs(c: Scheme, s: State, id: Bytes32)
    requires Core(c, s) && id in s.sessions && s.sessions[id].target in s.classes
    ensures s.classes[s.sessions[id].target].policy.voucherClass in s.classes
    ensures VouchPoll(GroundOf(s), s.sessions[id].target, id)
         == Poll(s.agora, s.epoch, s.classes[s.classes[s.sessions[id].target].policy.voucherClass].leaves,
                 s.revocations, s.spends, id, true)
  {
    hide Core;
    CoreGoverned(c, s);
    assert PolicyOk(s.classes, s.classes[s.sessions[id].target].policy);
  }

  /** The seat of a live statement is a landed leaf of the class. */
  lemma SeatIsLanded(c: Scheme, cs: ClassState, position: nat)
    requires ClassOk(c, cs) && position < |cs.leaves| && Value(cs.leaves[position]) != 0
    ensures cs.leaves[position] in cs.positions && cs.positions[cs.leaves[position]] == position
  {
    hide Value;
    PadIsEmpty();
  }

  lemma PadIsEmpty()
    ensures Value(PAD) == 0
  {
    LEZero();
  }

  /** The poll on a subject among one class's members now. */
  function PollOn(s: State, k: Bytes32, subject: Bytes32, vouching: bool): Poll
    requires k in s.classes
  {
    Poll(s.agora, s.epoch, s.classes[k].leaves, s.revocations, s.spends, subject, vouching)
  }

  /** These ballots were cast on this subject under this epoch's roots, from as many distinct
      landed leaves of the class: each one's statement holds with the nullifier counted for it and
      opens its leaf, which is unrevoked and, under the key that opens it, unspent. */
  ghost predicate SpeakFor(c: Scheme, s: State, k: Bytes32, subject: Bytes32, vouching: bool, ballots: map<Bytes32, ChainWitness>) {
    && k in s.classes
    && |Seats(ballots).Values| == |ballots|
    && forall n :: n in ballots ==>
         var position := ballots[n].leafWitness.index;
         && position < |s.classes[k].leaves|
         && s.classes[k].leaves[position] in s.classes[k].positions
         && s.classes[k].positions[s.classes[k].leaves[position]] == position
         && Ballot(c, PollOn(s, k, subject, vouching), n, ballots[n])
         && OpenedLeaf(c, ballots[n], s.agora).Some?
         && Value(s.classes[k].leaves[position]) == Value(OpenedLeaf(c, ballots[n], s.agora).value)
         && OrderOf(RevocationKey(c, s.classes[k].leaves[position])) !in s.revocations
         && OrderOf(SpendNullifier(c, ballots[n].credentialKey, s.classes[k].leaves[position], s.agora)) !in s.spends
  }

  lemma PollSpeaks(c: Scheme, s: State, k: Bytes32, subject: Bytes32, vouching: bool, ballots: map<Bytes32, ChainWitness>, q: set<seq<F>>)
    requires Primitives(c) && Core(c, s) && k in s.classes
    requires Polls.Counted(c, PollOn(s, k, subject, vouching), ballots)
    requires Hashed(c, PollOn(s, k, subject, vouching), ballots, q) && CollisionFree(c, q)
    ensures SpeakFor(c, s, k, subject, vouching, ballots)
  {
    hide Core, ClassOk, ClassesOk, StagedOk, Polls.Counted, Hashed, CollisionFree, Injective, OrderOf, RevocationKey, SpendNullifier,
      Ballot, OpenedLeaf;
    CoreSets(c, s);
    CoreLayout(c, s);
    ClassIn(c, s.classes, k);
    DistinctMembers(c, PollOn(s, k, subject, vouching), ballots, q);
    forall n | n in ballots
      ensures InGoodStanding(c, PollOn(s, k, subject, vouching), n, ballots[n])
      ensures s.classes[k].leaves[ballots[n].leafWitness.index] in s.classes[k].positions
      ensures s.classes[k].positions[s.classes[k].leaves[ballots[n].leafWitness.index]] == ballots[n].leafWitness.index
    {
      SeatIsLanded(c, s.classes[k], ballots[n].leafWitness.index);
    }
  }

  lemma TalliedBallots(c: Scheme, p: Poll, votes: map<(Bytes32, Bytes32), ChainWitness>, ns: set<Bytes32>)
    requires Tallied(c, p, votes, ns)
    ensures Polls.Counted(c, p, BallotsFor(votes, p.subject, ns))
    ensures BallotsFor(votes, p.subject, ns).Keys == ns && |BallotsFor(votes, p.subject, ns)| == |ns|
  {
    var ballots := BallotsFor(votes, p.subject, ns);
    assert Accepted(c, p, ballots) <= ballots.Keys <= ns;
  }

  /** In every run, an admission by vouching was backed by at least the threshold then in force
      (itself at least one) of distinct landed members of the voucher class in good standing. */
  lemma AdmissionIsVouched(c: Scheme, w: World, id: Bytes32, admission: Admission, q: set<seq<F>>)
    requires Primitives(c) && Reachable(c, w) && VouchFinalize(c, w.s, id).1 == Ok(Admitted(admission))
    requires Hashed(c, VouchPoll(GroundOf(w.s), w.s.sessions[id].target, id),
                    BallotsFor(w.g.votes, id, w.s.sessions[id].nullifiers), q)
    requires CollisionFree(c, q)
    ensures w.s.sessions[id].target in w.s.classes
    ensures var policy := w.s.classes[w.s.sessions[id].target].policy;
            var ballots := BallotsFor(w.g.votes, id, w.s.sessions[id].nullifiers);
            && ballots.Keys == w.s.sessions[id].nullifiers
            && |ballots| >= policy.threshold >= 1
            && SpeakFor(c, w.s, policy.voucherClass, id, true, ballots)
  {
    hide Core, CollisionFree, Hashed, Tallied, SpeakFor, Polls.Counted, BallotsFor, StageAdmission, Reachable, VouchPoll, GroundOf;
    ReachableIsSound(c, w);
    SessionBacked(c, w, id);
    VouchPollIs(c, w.s, id);
    CoreGoverned(c, w.s);
    var poll := VouchPoll(GroundOf(w.s), w.s.sessions[id].target, id);
    TalliedBallots(c, poll, w.g.votes, w.s.sessions[id].nullifiers);
    PollSpeaks(c, w.s, w.s.classes[w.s.sessions[id].target].policy.voucherClass, id, true,
               BallotsFor(w.g.votes, id, w.s.sessions[id].nullifiers), q);
  }

  lemma ApprovalPollIs(c: Scheme, s: State, subject: Bytes32)
    requires Core(c, s) && subject in s.proposals
    ensures s.proposals[subject].approving in s.classes
    ensures ApprovalPoll(GroundOf(s), s.proposals[subject].approving, subject)
         == Poll(s.agora, s.epoch, s.classes[s.proposals[subject].approving].leaves, s.revocations, s.spends, subject, false)
  {
    hide Core;
    CoreGoverned(c, s);
    assert ProposalOk(s.classes, s.proposals[subject]);
  }

  /** In every run, a decision carried out was approved by at least the quorum then in force
      (itself at least one) of distinct landed members of the approving class in good
      standing. */
  lemma DecisionHasQuorum(c: Scheme, w: World, subject: Bytes32, q: set<seq<F>>)
    requires Primitives(c) && Reachable(c, w) && Execute(c, w.s, subject).1.Ok?
    requires Hashed(c, ApprovalPoll(GroundOf(w.s), w.s.proposals[subject].approving, subject),
                    BallotsFor(w.g.approvals, subject, w.s.proposals[subject].approvals), q)
    requires CollisionFree(c, q)
    ensures var p := w.s.proposals[subject];
            var ballots := BallotsFor(w.g.approvals, subject, p.approvals);
            && ballots.Keys == p.approvals
            && |ballots| >= w.s.quorum >= 1
            && SpeakFor(c, w.s, p.approving, subject, false, ballots)
  {
    hide Core, CollisionFree, Hashed, Tallied, SpeakFor, Polls.Counted, BallotsFor, Reachable, ApprovalPoll, GroundOf,
      ActivatePolicy, AdvanceEpoch, Dissolve;
    ReachableIsSound(c, w);
    ProposalBacked(c, w, subject);
    ApprovalPollIs(c, w.s, subject);
    CoreGoverned(c, w.s);
    var poll := ApprovalPoll(GroundOf(w.s), w.s.proposals[subject].approving, subject);
    TalliedBallots(c, poll, w.g.approvals, w.s.proposals[subject].approvals);
    PollSpeaks(c, w.s, w.s.proposals[subject].approving, subject, false,
               BallotsFor(w.g.approvals, subject, w.s.proposals[subject].approvals), q);
  }

  // ---- The log ----

  /** Every reachable log passes both of the auditor's checks under its own key, and ends frozen
      exactly when the agora is dissolved. */
  lemma LogAlwaysPasses(c: Scheme, w: World)
    requires Primitives(c) && SignLaw(c) && Reachable(c, w) && w.s.log.Some?
    ensures var log := w.s.log.value;
            && PublicKey(c, log.seed).Some?
            && Log.VerifyLog(c, log.entries, log.heads, PublicKey(c, log.seed).value)
            && Log.Conforms(log.entries)
            && (EndsFrozen(log.entries) <==> w.s.dissolved)
  {
    hide Reachable, Core, Covered, Growing, GroundOf, SignLaw, Log.Kept, Log.Conforms, Log.HeadCommits;
    ReachableIsSound(c, w);
    Log.KeptVerifies(c, w.s.log.value);
  }
}
