/** What each step leaves standing between boundaries: who governs, who is served and how. */
module OperatorStanding {
  import opened Wrappers
  import opened Bytes
  import opened Crypto
  import opened Exclusion
  import opened Statements
  import opened Decisions
  import opened Operator
  import opened OperatorLayout
  import opened OperatorRuns
  import opened Log

  /** Everything but what is open, staged or recorded of an epoch. */
  datatype Standing = Standing(
    classes: map<Bytes32, ClassState>, quorum: nat, horizon: nat, revokedLeaves: set<Bytes32>,
    inboxes: map<Bytes32, InboxRecord>, tagSecret: Bytes32, statementSeed: Bytes32, log: Option<LogState>, dissolved: bool)

  function StandingOf(s: State): Standing {
    Standing(s.classes, s.quorum, s.horizon, s.revokedLeaves, s.inboxes, s.tagSecret, s.statementSeed, s.log, s.dissolved)
  }

  /** The standing after an executed decision, a revocation's boundary aside. */
  function StandingAfter(c: Scheme, s: State, d: Decision): Standing {
    match d
    case Policy(k, threshold, quorum) => StandingOf(ActivatePolicy(c, s, d).0)
    case Revocation(_) => StandingOf(s)
    case Dissolution => StandingOf(Dissolve(c, s))
    case InboxHorizon(boundaries) => StandingOf(s).(horizon := boundaries)
  }

  lemma EffectStands(c: Scheme, s: State, d: Decision)
    requires Primitives(c) && Core(c, s) && (d.Revocation? ==> !CanCross(s))
    ensures StandingOf(Effect(c, s, d)) == StandingAfter(c, s, d)
  {
    hide Core, Boundary, LandedAll;
    AdvanceValue(c, s);
  }

  /** An executed decision that crosses no boundary changes just what it decides. */
  lemma ExecuteStands(c: Scheme, s: State, subject: Bytes32)
    requires Primitives(c) && Core(c, s) && Crossing(s, Executing(subject)).None?
    ensures StandingOf(Execute(c, s, subject).0)
         == if Executes(s, subject) then StandingAfter(c, Consumed(s, subject), s.proposals[subject].decision) else StandingOf(s)
  {
    hide Core, Boundary, LandedAll, Effect, StandingAfter;
    if Executes(s, subject) {
      ConsumedKeeps(c, s, subject);
      ExecuteValue(c, s, subject);
      EffectStands(c, Consumed(s, subject), s.proposals[subject].decision);
    }
  }

  lemma FinalizeStands(c: Scheme, s: State, id: Bytes32)
    ensures StandingOf(VouchFinalize(c, s, id).0) == StandingOf(s)
  {
    hide VouchFinalize;
    FinalizeOnly(c, s, id);
  }

  lemma MigrateStands(c: Scheme, s: State, k: Bytes32, proof: StubProof<MigrationWitness>,
                      spend: Bytes32, successor: Bytes32, inbox: Bytes32)
    ensures StandingOf(Migrate(c, s, k, proof, spend, successor, inbox).0) == StandingOf(s)
  {
    hide Migrate;
    MigrateOnly(c, s, k, proof, spend, successor, inbox);
  }

  lemma VotingStands(c: Scheme, s: State, id: Bytes32, proof: StubProof<ChainWitness>, n: Bytes32)
    ensures StandingOf(VouchAttest(c, s, id, proof, n).0) == StandingOf(s)
    ensures StandingOf(Approve(c, s, id, proof, n).0) == StandingOf(s)
  {
    hide VerifyChain, RootsIn;
  }

  lemma RedeemStands(c: Scheme, s: State, k: Bytes32, proof: StubProof<ChainWitness>, challenge: Bytes32)
    ensures StandingOf(RedeemAccess(c, s, k, proof, challenge).0) == StandingOf(s)
  {
    hide RedeemAccess;
    RedeemBurns(c, s, k, proof, challenge);
  }

  lemma OpeningStands(c: Scheme, s: State, a: Bytes32, b: Bytes32, id: Bytes32, d: Decision)
    ensures StandingOf(CredentialsInit(s, a, b).0) == StandingOf(s)
    ensures StandingOf(StartVouch(c, s, a, b, id).0) == StandingOf(s)
    ensures StandingOf(IssueChallenge(s, a).0) == StandingOf(s)
    ensures StandingOf(Propose(c, s, d, a, b).0) == StandingOf(s)
  {
    hide Remaining;
  }

  lemma AdvanceStands(c: Scheme, s: State)
    requires Primitives(c) && Core(c, s) && !CanCross(s)
    ensures StandingOf(AdvanceEpoch(c, s).0) == StandingOf(s)
  {
    hide Core, Boundary, LandedAll;
    AdvanceValue(c, s);
  }

  /** Between boundaries only executed decisions and inbox instructions change anything that
      stands. */
  lemma StepStands(c: Scheme, s: State, step: Step)
    requires Primitives(c) && Core(c, s) && Crossing(s, step).None? && !step.Executing? && !step.Certifying?
    ensures StandingOf(Apply(c, s, step).0) == StandingOf(s)
  {
    hide Core, StandingOf, CredentialsInit, StartVouch, VouchFinalize, Migrate, Propose,
      AdvanceEpoch, IssueChallenge, RedeemAccess, VouchAttest, Approve;
    match step {
      case Init(commitment, inbox) => OpeningStands(c, s, commitment, inbox, ZERO32, Dissolution);
      case Start(candidate, target, id) => OpeningStands(c, s, candidate, target, id, Dissolution);
      case Attest(id, proof, n) => VotingStands(c, s, id, proof, n);
      case Approving(id, proof, n) => VotingStands(c, s, id, proof, n);
      case Finalize(id) => FinalizeStands(c, s, id);
      case Migrating(k, proof, spend, successor, inbox) => MigrateStands(c, s, k, proof, spend, successor, inbox);
      case Proposing(d, k, nonce) => OpeningStands(c, s, k, nonce, k, d);
      case Advancing => AdvanceStands(c, s);
      case Challenging(entropy) => OpeningStands(c, s, entropy, entropy, entropy, Dissolution);
      case Redeeming(k, proof, challenge) => RedeemStands(c, s, k, proof, challenge);
    }
  }
}

/** The policies in force over every run: those last decided, and the founding's until then. */
module OperatorPolicies {
  import opened Wrappers
  import opened Bytes
  import opened Crypto
  import opened Exclusion
  import opened Statements
  import opened Decisions
  import opened Operator
  import opened OperatorLayout
  import opened OperatorRuns
  import opened OperatorReceipts
  import opened OperatorSafety
  import opened OperatorStanding
  import opened Log

  /** One executed policy decision. */
  datatype Change = Change(class_: Bytes32, threshold: nat, quorum: nat)

  function ChangeOf(d: Decision): Change
    requires d.Policy?
  {
    Change(d.class_, d.threshold, d.quorum)
  }

  /** The policy decision a step carries out, if it carries one out. */
  function Changed(c: Scheme, s: State, step: Step): seq<Change> {
    if step.Executing? && step.subject in s.proposals && s.proposals[step.subject].decision.Policy? && Apply(c, s, step).1.Ok?
    then [ChangeOf(s.proposals[step.subject].decision)]
    else []
  }

  /** Every policy decision a run carries out, in order. */
  function Changes(c: Scheme, w: World, steps: seq<Step>): seq<Change> {
    if |steps| == 0 then []
    else Changes(c, w, steps[..|steps| - 1]) + Changed(c, Run(c, w, steps[..|steps| - 1]).s, steps[|steps| - 1])
  }

  /** The threshold the latest decision for a class set, if any did. */
  function ThresholdAfter(changes: seq<Change>, k: Bytes32, founding: nat): nat {
    if |changes| == 0 then founding
    else if changes[|changes| - 1].class_ == k then changes[|changes| - 1].threshold
    else ThresholdAfter(changes[..|changes| - 1], k, founding)
  }

  /** How many decisions were for a class. */
  function ChangesFor(changes: seq<Change>, k: Bytes32): nat {
    if |changes| == 0 then 0
    else ChangesFor(changes[..|changes| - 1], k) + (if changes[|changes| - 1].class_ == k then 1 else 0)
  }

  /** The quorum the latest decision of any class set; one before any. */
  function QuorumAfter(changes: seq<Change>): nat {
    if |changes| == 0 then 1 else changes[|changes| - 1].quorum
  }

  /** A class governed by these decisions since it was founded. */
  predicate GovernedBy(founded: ClassState, changes: seq<Change>, k: Bytes32, cs: ClassState) {
    && cs.policy == ClassPolicy(founded.policy.voucherClass, ThresholdAfter(changes, k, founded.policy.threshold))
    && cs.version == founded.version + ChangesFor(changes, k)
  }

  ghost predicate Governed(founded: map<Bytes32, ClassState>, changes: seq<Change>, s: State) {
    && s.classes.Keys == founded.Keys
    && s.quorum == QuorumAfter(changes)
    && forall k :: k in founded ==> GovernedBy(founded[k], changes, k, s.classes[k])
  }

  /** Same classes, policies, versions and quorum. */
  ghost predicate SameTerms(s: State, s': State) {
    && s'.classes.Keys == s.classes.Keys && s'.quorum == s.quorum
    && forall k :: k in s.classes ==> s'.classes[k].policy == s.classes[k].policy && s'.classes[k].version == s.classes[k].version
  }

  lemma SameTermsGoverned(founded: map<Bytes32, ClassState>, changes: seq<Change>, s: State, s': State)
    requires Governed(founded, changes, s) && SameTerms(s, s')
    ensures Governed(founded, changes, s')
  {
  }

  /** The state's terms with one decision carried out. */
  ghost predicate TermsChanged(s: State, change: Change, s': State) {
    && change.class_ in s.classes && s'.classes.Keys == s.classes.Keys && s'.quorum == change.quorum
    && forall k :: k in s.classes ==>
         if k == change.class_
         then s'.classes[k].policy == s.classes[k].policy.(threshold := change.threshold) && s'.classes[k].version == s.classes[k].version + 1
         else s'.classes[k].policy == s.classes[k].policy && s'.classes[k].version == s.classes[k].version
  }

  lemma ChangeGoverns(founded: map<Bytes32, ClassState>, changes: seq<Change>, s: State, change: Change, s': State)
    requires Governed(founded, changes, s) && TermsChanged(s, change, s')
    ensures Governed(founded, changes + [change], s')
  {
    assert (changes + [change])[..|changes|] == changes;
    forall k | k in founded ensures GovernedBy(founded[k], changes + [change], k, s'.classes[k]) {
      assert GovernedBy(founded[k], changes, k, s.classes[k]);
    }
  }

  lemma BoundaryTerms(c: Scheme, s: State)
    requires Primitives(c) && Core(c, s)
    ensures SameTerms(s, Boundary(c, s))
  {
    hide Core, Boundary, LandedAll;
    BoundaryFields(c, s);
    AllLands(c, s);
    forall k | k in s.classes ensures GrewBy(s.classes[k], LandedAll(c, s).classes[k], StagedFor(s.staged.admissions, k)) {
      LandedGrows(c, s, k);
    }
  }

  lemma CrossingTerms(c: Scheme, s: State, step: Step)
    requires Primitives(c) && Core(c, s) && Crossing(s, step).Some?
    ensures SameTerms(s, Apply(c, s, step).0) && Changed(c, s, step) == []
  {
    hide Core, Boundary, Apply;
    CrossingIsBoundary(c, s, step);
    BoundaryTerms(c, Crossing(s, step).value);
  }

  lemma PolicyTakes(c: Scheme, s: State, subject: Bytes32)
    requires subject in s.proposals && s.proposals[subject].decision.Policy?
    requires s.proposals[subject].decision.class_ in s.classes
    ensures Apply(c, s, Executing(subject)).1.Ok? <==> Executes(s, subject)
  {
    hide AdvanceEpoch, Dissolve, Appended;
  }

  /** An executed policy decision always takes: its class exists. */
  lemma ChangedIs(c: Scheme, s: State, subject: Bytes32)
    requires Core(c, s)
    ensures Executes(s, subject) ==> DecisionOk(s.classes, s.proposals[subject].decision)
    ensures Changed(c, s, Executing(subject))
         == if Executes(s, subject) && s.proposals[subject].decision.Policy?
            then [ChangeOf(s.proposals[subject].decision)]
            else []
  {
    hide Core, Apply;
    CoreGoverned(c, s);
    if subject in s.proposals {
      assert ProposalOk(s.classes, s.proposals[subject]);
      if s.proposals[subject].decision.Policy? {
        PolicyTakes(c, s, subject);
      }
    }
  }

  lemma DecidedTerms(c: Scheme, s: State, d: Decision, s': State)
    requires DecisionOk(s.classes, d) && StandingOf(s') == StandingAfter(c, s, d)
    ensures if d.Policy? then TermsChanged(s, ChangeOf(d), s') else SameTerms(s, s')
  {
    hide Appended;
  }

  lemma ExecuteTerms(c: Scheme, s: State, subject: Bytes32)
    requires Primitives(c) && Core(c, s) && Crossing(s, Executing(subject)).None?
    ensures var s', changed := Execute(c, s, subject).0, Changed(c, s, Executing(subject));
            if changed == [] then SameTerms(s, s') else |changed| == 1 && TermsChanged(s, changed[0], s')
  {
    hide Core, Execute, Crossing, Changed, StandingAfter;
    ChangedIs(c, s, subject);
    ExecuteStands(c, s, subject);
    if Executes(s, subject) {
      DecidedTerms(c, Consumed(s, subject), s.proposals[subject].decision, Execute(c, s, subject).0);
    }
  }

  lemma StepTerms(c: Scheme, s: State, step: Step)
    requires Primitives(c) && Core(c, s)
    ensures var s', changed := Apply(c, s, step).0, Changed(c, s, step);
            if changed == [] then SameTerms(s, s') else |changed| == 1 && TermsChanged(s, changed[0], s')
  {
    hide Core, Execute, Crossing, SameTerms, TermsChanged;
    if Crossing(s, step).Some? {
      CrossingTerms(c, s, step);
    } else if step.Executing? {
      ExecuteTerms(c, s, step.subject);
    } else {
      QuietTerms(c, s, step);
    }
  }

  lemma QuietTerms(c: Scheme, s: State, step: Step)
    requires Primitives(c) && Core(c, s) && Crossing(s, step).None? && !step.Executing?
    ensures SameTerms(s, Apply(c, s, step).0)
  {
    hide Core, Crossing;
    if step.Certifying? {
      CertifyingTerms(c, s, step.leaf, step.inbox, step.action, step.instruction);
    } else {
      hide Apply;
      StepStands(c, s, step);
    }
  }

  lemma CertifyingTerms(c: Scheme, s: State, leaf: Bytes32, inbox: Bytes32, action: InboxAction, proof: StubProof<InboxWitness>)
    ensures SameTerms(s, InboxCertificate(c, s, leaf, inbox, action, proof).0)
  {
    hide VerifyInbox, Landed;
  }

  lemma GenesisGoverned(c: Scheme, start: OperatorSafety.Start)
    requires Primitives(c) && Founds(c, start)
    ensures Governed(FoundClasses(start.founding.classes), [], Genesis(c, start).s)
  {
    hide LogSnapshot, SnapshotOf, FoundClasses, LandFounder, Created, Core, RootsOf, TreesOf;
    var f := start.founding;
    var founded := FoundClasses(f.classes);
    CreatedFields(c, f, start.tagSecret, start.statement, start.logSeed);
    GenesisQuorum(c, start);
    FoundedClasses(f.classes);
    FounderLands(c, founded, f.founder, f.founderClasses);
    LandedTerms(founded, f.founder, f.founderClasses, Genesis(c, start).s);
  }

  lemma LandedTerms(founded: map<Bytes32, ClassState>, founder: Bytes32, into: seq<Bytes32>, s: State)
    requires s.classes.Keys == founded.Keys && s.quorum == 1
    requires forall k :: k in founded ==> s.classes[k] == MaybeFounder(founded[k], founder, k in into)
    ensures Governed(founded, [], s)
  {
  }

  lemma GenesisQuorum(c: Scheme, start: OperatorSafety.Start)
    requires Founds(c, start)
    ensures Genesis(c, start).s.quorum == 1
  {
    hide LogSnapshot, SnapshotOf, FoundClasses, LandFounder;
  }

  lemma {:induction false} RunGoverned(c: Scheme, start: OperatorSafety.Start, steps: seq<Step>)
    requires Primitives(c) && Founds(c, start)
    ensures Sound(c, Run(c, Genesis(c, start), steps))
    ensures Governed(FoundClasses(start.founding.classes), Changes(c, Genesis(c, start), steps), Run(c, Genesis(c, start), steps).s)
  {
    hide Sound, Governed, Next, Founds, Genesis, Changed, FoundClasses, SameTerms, TermsChanged;
    if |steps| == 0 {
      GenesisSound(c, start);
      GenesisGoverned(c, start);
    } else {
      var founded := FoundClasses(start.founding.classes);
      var init, step := steps[..|steps| - 1], steps[|steps| - 1];
      var before := Run(c, Genesis(c, start), init);
      var changes, changed := Changes(c, Genesis(c, start), init), Changed(c, before.s, step);
      RunGoverned(c, start, init);
      StepKeepsSound(c, before, step);
      CoreOfSound(c, before);
      StepTerms(c, before.s, step);
      NextFields(c, before, step);
      if changed == [] {
        assert changes + changed == changes;
        SameTermsGoverned(founded, changes, before.s, Next(c, before, step).s);
      } else {
        assert changed == [changed[0]];
        ChangeGoverns(founded, changes, before.s, changed[0], Next(c, before, step).s);
      }
    }
  }

  lemma CoreOfSound(c: Scheme, w: World)
    requires Sound(c, w)
    ensures Core(c, w.s)
  {
    hide Core;
  }

  /** In every run each class's threshold is the one its latest executed policy decision set, and
      the quorum the one the latest of any class set, the founding's until there is one; its version
      counts them. So every admission met its class's latest threshold, and every decision carried
      out the latest quorum. */
  lemma PolicyInForce(c: Scheme, start: OperatorSafety.Start, steps: seq<Step>, id: Bytes32, subject: Bytes32)
    requires Primitives(c) && Founds(c, start)
    ensures var founded, changes := FoundClasses(start.founding.classes), Changes(c, Genesis(c, start), steps);
            var s := Run(c, Genesis(c, start), steps).s;
            && Governed(founded, changes, s)
            && (VouchFinalize(c, s, id).1.Ok? ==>
                  && s.sessions[id].target in founded
                  && |s.sessions[id].nullifiers|
                     >= ThresholdAfter(changes, s.sessions[id].target, founded[s.sessions[id].target].policy.threshold))
            && (Execute(c, s, subject).1.Ok? ==> |s.proposals[subject].approvals| >= QuorumAfter(changes))
  {
    hide Run, Founds, Genesis, Changes, FoundClasses, Sound, Remaining, StagedIn, AdvanceEpoch, ActivatePolicy, Dissolve;
    RunGoverned(c, start, steps);
    var s := Run(c, Genesis(c, start), steps).s;
    if VouchFinalize(c, s, id).1.Ok? {
      assert GovernedBy(FoundClasses(start.founding.classes)[s.sessions[id].target], Changes(c, Genesis(c, start), steps),
                        s.sessions[id].target, s.classes[s.sessions[id].target]);
    }
  }
}
