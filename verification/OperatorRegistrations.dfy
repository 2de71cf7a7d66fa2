/** Under which inbox key each leaf is reached, over every run: told from what was asked and
    answered since the founding, and from nothing the operator keeps of it. */
module OperatorRegistrations {
  import opened Wrappers
  import opened Bytes
  import opened Crypto
  import opened Exclusion
  import opened Statements
  import opened Decisions
  import opened Operator
  import opened OperatorLayout
  import opened OperatorRuns
  import opened OperatorReceipts
  import opened OperatorSafety
  import opened OperatorMembership
  import opened OperatorServing
  import opened OperatorSessions
  import opened OperatorStanding

  function Found<V>(m: map<Bytes32, V>, leaf: Bytes32): Option<V> {
    if leaf in m then Some(m[leaf]) else None
  }

  /** The leaves staged, for whatever class. */
  function Arriving(adm: Admissions): set<Bytes32> {
    set i | 0 <= i < |adm| :: adm[i].1
  }

  // ---- What a boundary registers ----

  /** A landing leaf with a named key is registered under exactly that key from the next epoch, and
      its name is used up; every other leaf keeps its registration and its name. */
  ghost predicate Welcomes(registered: map<Bytes32, InboxRecord>, named: map<Bytes32, Bytes32>, arriving: set<Bytes32>, next: nat,
                           registered': map<Bytes32, InboxRecord>, named': map<Bytes32, Bytes32>)
  {
    && (forall leaf :: Found(registered', leaf) ==
          if leaf in arriving && leaf in named then Some(InboxRecord(named[leaf], next)) else Found(registered, leaf))
    && (forall leaf :: Found(named', leaf) == if leaf in arriving then None else Found(named, leaf))
  }

  lemma LandOneWelcomes(c: Scheme, l: Landing, adm: Admissions, next: nat)
    requires Primitives(c) && l.ok && |adm| > 0 && ClassesOk(c, l.classes) && StagedOk(c, l.classes, adm)
    ensures var l' := LandOne(c, l, adm[0], next);
            Welcomes(l.inboxes, l.stagedInboxes, {adm[0].1}, next, l'.inboxes, l'.stagedInboxes)
  {
    hide Land, ClassesOk, StagedOk;
    LandOnePlaces(c, l, adm, next);
  }

  lemma WelcomesOn(a: map<Bytes32, InboxRecord>, n: map<Bytes32, Bytes32>, first: Bytes32, next: nat,
                   a1: map<Bytes32, InboxRecord>, n1: map<Bytes32, Bytes32>, rest: set<Bytes32>,
                   a2: map<Bytes32, InboxRecord>, n2: map<Bytes32, Bytes32>)
    requires Welcomes(a, n, {first}, next, a1, n1) && Welcomes(a1, n1, rest, next, a2, n2)
    ensures Welcomes(a, n, {first} + rest, next, a2, n2)
  {
    forall leaf
      ensures Found(a2, leaf) == if leaf in {first} + rest && leaf in n then Some(InboxRecord(n[leaf], next)) else Found(a, leaf)
      ensures Found(n2, leaf) == if leaf in {first} + rest then None else Found(n, leaf)
    {
      assert Found(a1, leaf) == if leaf in {first} && leaf in n then Some(InboxRecord(n[leaf], next)) else Found(a, leaf);
      assert Found(n1, leaf) == if leaf in {first} then None else Found(n, leaf);
    }
  }

  lemma {:induction false} LandingWelcomes(c: Scheme, l: Landing, adm: Admissions, next: nat)
    requires Primitives(c) && l.ok && ClassesOk(c, l.classes) && StagedOk(c, l.classes, adm)
    ensures var l' := LandAll(c, l, adm, next);
            Welcomes(l.inboxes, l.stagedInboxes, Arriving(adm), next, l'.inboxes, l'.stagedInboxes)
    decreases |adm|
  {
    hide ClassesOk, StagedOk, LandOne;
    if |adm| > 0 {
      var l1 := LandOne(c, l, adm[0], next);
      LandOnePlaces(c, l, adm, next);
      PlacedKeepsLayout(c, l.classes, adm);
      PlacedKeepsStaging(c, l.classes, adm);
      LandOneWelcomes(c, l, adm, next);
      LandingWelcomes(c, l1, adm[1..], next);
      var l2 := LandAll(c, l1, adm[1..], next);
      hide Welcomes;
      WelcomesOn(l.inboxes, l.stagedInboxes, adm[0].1, next, l1.inboxes, l1.stagedInboxes, Arriving(adm[1..]),
                 l2.inboxes, l2.stagedInboxes);
      ArrivingSplit(adm);
    } else {
      assert Arriving(adm) == {};
    }
  }

  lemma ArrivingSplit(adm: Admissions)
    requires |adm| > 0
    ensures Arriving(adm) == {adm[0].1} + Arriving(adm[1..])
  {
    forall leaf | leaf in Arriving(adm) ensures leaf in {adm[0].1} + Arriving(adm[1..]) {
      var i :| 0 <= i < |adm| && adm[i].1 == leaf;
      if i > 0 {
        assert adm[1..][i - 1].1 == leaf;
      }
    }
    forall leaf | leaf in Arriving(adm[1..]) ensures leaf in Arriving(adm) {
      var i :| 0 <= i < |adm| - 1 && adm[1..][i].1 == leaf;
      assert adm[i + 1].1 == leaf;
    }
  }

  /** Across any boundary, exactly the landing leaves with a named key are registered anew, each
      under its own named key from the new epoch. */
  lemma BoundaryRegisters(c: Scheme, s: State)
    requires Primitives(c) && Core(c, s)
    ensures var s' := Boundary(c, s);
            Welcomes(s.inboxes, s.stagedInboxes, Arriving(s.staged.admissions), s.epoch + 1, s'.inboxes, s'.stagedInboxes)
  {
    hide Boundary, Welcomes, LandAll;
    BoundaryFields(c, s);
    CoreLayout(c, s);
    LandingWelcomes(c, Landing(s.classes, s.inboxes, s.stagedInboxes, true), s.staged.admissions, s.epoch + 1);
  }

  predicate Turns(c: Scheme, s: State, step: Step) {
    Apply(c, s, step).0.epoch != s.epoch
  }

  lemma TurnRegisters(c: Scheme, s: State, step: Step)
    requires Primitives(c) && Core(c, s)
    ensures Turns(c, s, step) <==> Crossing(s, step).Some?
    ensures Turns(c, s, step) ==>
              var s' := Apply(c, s, step).0;
              && s'.epoch == s.epoch + 1
              && Welcomes(s.inboxes, s.stagedInboxes, Arriving(s.staged.admissions), s.epoch + 1, s'.inboxes, s'.stagedInboxes)
  {
    hide Core, Apply, Boundary, Welcomes;
    StepEpoch(c, s, step);
    if Crossing(s, step).Some? {
      CrossingIsBoundary(c, s, step);
      BoundaryRegisters(c, Crossing(s, step).value);
    }
  }

  // ---- What the other steps name and register ----

  /** The key an accepted step names for a leaf yet to land. */
  function Names(c: Scheme, s: State, step: Step, leaf: Bytes32): Option<Bytes32> {
    if Apply(c, s, step).1.Err? then None
    else match step
      case Init(commitment, inbox) => if commitment == leaf then Some(inbox) else None
      case Migrating(_, _, _, successor, inbox) => if successor == leaf then Some(inbox) else None
      case _ => None
  }

  /** The leaf's own instruction, accepted. */
  predicate Instructs(c: Scheme, s: State, step: Step, leaf: Bytes32) {
    step.Certifying? && step.leaf == leaf && Apply(c, s, step).1.Ok?
  }

  lemma MigrateNames(c: Scheme, s: State, step: Step, leaf: Bytes32)
    requires step.Migrating?
    ensures Found(Apply(c, s, step).0.stagedInboxes, leaf)
         == if Names(c, s, step, leaf).Some? then Names(c, s, step, leaf) else Found(s.stagedInboxes, leaf)
  {
    hide VerifyMigration, RootsIn, StageAdmission, OrderOf;
    StagingOnly(c, s, step.class_, step.successor);
  }

  lemma FinalizeNames(c: Scheme, s: State, id: Bytes32)
    ensures VouchFinalize(c, s, id).0.stagedInboxes == s.stagedInboxes
  {
    hide VouchFinalize;
    FinalizeOnly(c, s, id);
  }

  lemma VotingNames(c: Scheme, s: State, id: Bytes32, proof: StubProof<ChainWitness>, n: Bytes32)
    ensures VouchAttest(c, s, id, proof, n).0.stagedInboxes == s.stagedInboxes
    ensures Approve(c, s, id, proof, n).0.stagedInboxes == s.stagedInboxes
    ensures RedeemAccess(c, s, id, proof, n).0.stagedInboxes == s.stagedInboxes
  {
    hide VerifyChain, RootsIn, RedeemAccess;
    RedeemBurns(c, s, id, proof, n);
  }

  lemma AdvanceNames(c: Scheme, s: State)
    requires Primitives(c) && Core(c, s) && !CanCross(s)
    ensures AdvanceEpoch(c, s).0.stagedInboxes == s.stagedInboxes
  {
    hide Core, Boundary, LandedAll;
    AdvanceValue(c, s);
  }

  lemma ExecuteNames(c: Scheme, s: State, subject: Bytes32)
    requires Primitives(c) && Core(c, s) && Crossing(s, Executing(subject)).None?
    ensures Execute(c, s, subject).0.stagedInboxes == s.stagedInboxes
  {
    hide Core, Boundary, LandedAll, Execute, AdvanceEpoch;
    if Executes(s, subject) {
      ConsumedKeeps(c, s, subject);
      ExecuteValue(c, s, subject);
      if s.proposals[subject].decision.Revocation? {
        AdvanceNames(c, Consumed(s, subject));
      }
    } else {
      ExecuteRefused(c, s, subject);
    }
  }

  lemma OtherNames(c: Scheme, s: State, a: Bytes32, b: Bytes32, id: Bytes32, d: Decision)
    ensures StartVouch(c, s, a, b, id).0.stagedInboxes == s.stagedInboxes
    ensures IssueChallenge(s, a).0.stagedInboxes == s.stagedInboxes
    ensures Propose(c, s, d, a, b).0.stagedInboxes == s.stagedInboxes
  {
    hide Remaining;
  }

  lemma CertifyingNames(c: Scheme, s: State, leaf: Bytes32, inbox: Bytes32, action: InboxAction, proof: StubProof<InboxWitness>)
    ensures InboxCertificate(c, s, leaf, inbox, action, proof).0.stagedInboxes == s.stagedInboxes
  {
    hide VerifyInbox, Landed;
  }

  /** Between boundaries a leaf's name changes only as an accepted init or migration names it. */
  lemma StepNames(c: Scheme, s: State, step: Step, leaf: Bytes32)
    requires Primitives(c) && Core(c, s) && Crossing(s, step).None?
    ensures Found(Apply(c, s, step).0.stagedInboxes, leaf)
         == if Names(c, s, step, leaf).Some? then Names(c, s, step, leaf) else Found(s.stagedInboxes, leaf)
  {
    hide Core, StartVouch, VouchFinalize, Migrate, Propose, Execute, InboxCertificate, Crossing,
      AdvanceEpoch, IssueChallenge, RedeemAccess, VouchAttest, Approve;
    match step {
      case Init(commitment, inbox) =>
      case Start(candidate, target, id) => OtherNames(c, s, candidate, target, id, Dissolution);
      case Attest(id, proof, n) => VotingNames(c, s, id, proof, n);
      case Approving(id, proof, n) => VotingNames(c, s, id, proof, n);
      case Finalize(id) => FinalizeNames(c, s, id);
      case Migrating(k, proof, spend, successor, inbox) => MigrateNames(c, s, step, leaf);
      case Proposing(d, k, nonce) => OtherNames(c, s, k, nonce, k, d);
      case Executing(subject) => ExecuteNames(c, s, subject);
      case Certifying(l, inbox, action, proof) => CertifyingNames(c, s, l, inbox, action, proof);
      case Advancing => AdvancingNames(c, s);
      case Challenging(entropy) => OtherNames(c, s, entropy, entropy, entropy, Dissolution);
      case Redeeming(k, proof, challenge) => VotingNames(c, s, k, proof, challenge);
    }
  }

  lemma AdvancingNames(c: Scheme, s: State)
    requires Primitives(c) && Core(c, s) && Crossing(s, Advancing).None?
    ensures AdvanceEpoch(c, s).0.stagedInboxes == s.stagedInboxes
  {
    hide Core, AdvanceEpoch;
    AdvanceNames(c, s);
  }

  /** What an accepted instruction leaves its leaf registered under. */
  function Instructed(s: State, step: Step): Option<InboxRecord>
    requires step.Certifying?
  {
    if step.action == InboxAction.Renew then Some(InboxRecord(step.inbox, s.epoch)) else None
  }

  lemma CertifyingRegisters(c: Scheme, s: State, step: Step, leaf: Bytes32)
    requires step.Certifying?
    ensures Found(Apply(c, s, step).0.inboxes, leaf)
         == if Instructs(c, s, step, leaf) then Instructed(s, step) else Found(s.inboxes, leaf)
  {
    hide VerifyInbox, Landed;
  }

  lemma ExecuteRegisters(c: Scheme, s: State, subject: Bytes32)
    requires Primitives(c) && Core(c, s) && Crossing(s, Executing(subject)).None?
    ensures Execute(c, s, subject).0.inboxes == s.inboxes
  {
    hide Core, Execute, Crossing, Log.Appended;
    ExecuteStands(c, s, subject);
  }

  /** Between boundaries a leaf's registration changes only as its own accepted instruction says. */
  lemma StepRegisters(c: Scheme, s: State, step: Step, leaf: Bytes32)
    requires Primitives(c) && Core(c, s) && Crossing(s, step).None?
    ensures Found(Apply(c, s, step).0.inboxes, leaf)
         == if Instructs(c, s, step, leaf) then Instructed(s, step) else Found(s.inboxes, leaf)
  {
    hide Core, Crossing;
    if step.Certifying? {
      hide Apply;
      CertifyingRegisters(c, s, step, leaf);
    } else if step.Executing? {
      hide Execute;
      ExecuteRegisters(c, s, step.subject);
    } else {
      hide Apply;
      StepStands(c, s, step);
    }
  }

  // ---- Replaying a run ----

  /** The key a leaf yet to land was last named, by the requests accepted since it last landed. */
  function NamedBy(c: Scheme, w: World, steps: seq<Step>, leaf: Bytes32): Option<Bytes32> {
    if |steps| == 0 then None
    else
      var init, step := steps[..|steps| - 1], steps[|steps| - 1];
      var s := Run(c, w, init).s;
      if Turns(c, s, step) && leaf in Arriving(s.staged.admissions) then None
      else if !Turns(c, s, step) && Names(c, s, step, leaf).Some? then Names(c, s, step, leaf)
      else NamedBy(c, w, init, leaf)
  }

  /** What a leaf is registered under: what it landed named, or its founding did, until its own
      accepted instructions say otherwise. */
  function RegisteredBy(c: Scheme, w: World, steps: seq<Step>, founded: Option<InboxRecord>, leaf: Bytes32): Option<InboxRecord> {
    if |steps| == 0 then founded
    else
      var init, step := steps[..|steps| - 1], steps[|steps| - 1];
      var s := Run(c, w, init).s;
      if Turns(c, s, step) && leaf in Arriving(s.staged.admissions) && NamedBy(c, w, init, leaf).Some?
      then Some(InboxRecord(NamedBy(c, w, init, leaf).value, s.epoch + 1))
      else if !Turns(c, s, step) && Instructs(c, s, step, leaf) then Instructed(s, step)
      else RegisteredBy(c, w, init, founded, leaf)
  }

  lemma StepReplays(c: Scheme, w: World, step: Step, leaf: Bytes32)
    requires Primitives(c) && Core(c, w.s)
    ensures var s, s' := w.s, Next(c, w, step).s;
            && Found(s'.stagedInboxes, leaf) ==
                 (if Turns(c, s, step) && leaf in Arriving(s.staged.admissions) then None
                  else if !Turns(c, s, step) && Names(c, s, step, leaf).Some? then Names(c, s, step, leaf)
                  else Found(s.stagedInboxes, leaf))
            && Found(s'.inboxes, leaf) ==
                 (if Turns(c, s, step) && leaf in Arriving(s.staged.admissions) && leaf in s.stagedInboxes
                  then Some(InboxRecord(s.stagedInboxes[leaf], s.epoch + 1))
                  else if !Turns(c, s, step) && Instructs(c, s, step, leaf) then Instructed(s, step)
                  else Found(s.inboxes, leaf))
  {
    hide Core, Apply, Next, Turns, Crossing, Arriving, Names, Instructs;
    NextFields(c, w, step);
    TurnRegisters(c, w.s, step);
    if Crossing(w.s, step).None? {
      StepNames(c, w.s, step, leaf);
      StepRegisters(c, w.s, step, leaf);
    }
  }

  /** In every run the operator registers each leaf under exactly what the run's accepted requests
      say, and holds exactly the name they leave it. */
  lemma {:induction false} RegistrationsReplay(c: Scheme, start: OperatorSafety.Start, steps: seq<Step>, leaf: Bytes32)
    requires Primitives(c) && Founds(c, start)
    ensures Found(Run(c, Genesis(c, start), steps).s.stagedInboxes, leaf) == NamedBy(c, Genesis(c, start), steps, leaf)
    ensures Found(Run(c, Genesis(c, start), steps).s.inboxes, leaf)
         == RegisteredBy(c, Genesis(c, start), steps, FoundedRecord(start.founding, leaf), leaf)
  {
    hide Founds, Genesis, Sound, Next, Turns, Arriving, Names, Instructs, Instructed;
    if |steps| == 0 {
      GenesisRegisters(c, start, leaf);
    } else {
      var init, step := steps[..|steps| - 1], steps[|steps| - 1];
      var before := Run(c, Genesis(c, start), init);
      RegistrationsReplay(c, start, init, leaf);
      GenesisSound(c, start);
      RunKeepsSound(c, Genesis(c, start), init);
      SoundHasCore(c, before);
      StepReplays(c, before, step, leaf);
    }
  }

  /** The founder is registered at the founding, under the key it named. */
  function FoundedRecord(f: Founding, leaf: Bytes32): Option<InboxRecord> {
    if leaf == f.founder then Some(InboxRecord(f.founderInbox, f.genesis)) else None
  }

  lemma GenesisRegisters(c: Scheme, start: OperatorSafety.Start, leaf: Bytes32)
    requires Founds(c, start)
    ensures Found(Genesis(c, start).s.stagedInboxes, leaf) == None
    ensures Found(Genesis(c, start).s.inboxes, leaf) == FoundedRecord(start.founding, leaf)
  {
    hide LogSnapshot, SnapshotOf, FoundClasses, LandFounder;
  }

  // ---- Everyone who lands was named ----

  /** Every leaf on its way in: pending, a session's candidate, or staged. */
  function OnTheWay(s: State): set<Bytes32> {
    s.pending + Candidates(s.sessions) + Arriving(s.staged.admissions)
  }

  function Candidates(sessions: map<Bytes32, Session>): set<Bytes32> {
    set id | id in sessions :: sessions[id].candidate
  }

  /** Every leaf on its way in has a named key or landed already, as long as it can still land. */
  ghost predicate Announced(s: State) {
    s.epoch + 1 < U64 ==> forall leaf :: leaf in OnTheWay(s) ==> leaf in s.stagedInboxes || Landed(s, leaf)
  }

  /** The step put no leaf on its way that was not, but those it names. */
  ghost predicate Announces(c: Scheme, s: State, step: Step, s': State) {
    forall leaf :: leaf in OnTheWay(s') ==> leaf in OnTheWay(s) || Names(c, s, step, leaf).Some?
  }

  lemma ArrivingAppends(adm: Admissions, k: Bytes32, leaf: Bytes32)
    ensures Arriving(adm + [(k, leaf)]) == Arriving(adm) + {leaf}
  {
    var more := adm + [(k, leaf)];
    assert more[|adm|].1 == leaf;
    forall l | l in Arriving(adm) ensures l in Arriving(more) {
      var i :| 0 <= i < |adm| && adm[i].1 == l;
      assert more[i].1 == l;
    }
  }

  lemma StagingArrives(c: Scheme, s: State, k: Bytes32, leaf: Bytes32)
    ensures Arriving(StageAdmission(c, s, k, leaf).0.staged.admissions) <= Arriving(s.staged.admissions) + {leaf}
  {
    hide Remaining, StagedIn, PositionOf, Arriving;
    ArrivingAppends(s.staged.admissions, k, leaf);
  }

  lemma MigrateAnnounces(c: Scheme, s: State, step: Step)
    requires step.Migrating? && s.epoch + 1 < U64
    ensures Announces(c, s, step, Apply(c, s, step).0)
  {
    hide VerifyMigration, RootsIn, OrderOf, Remaining, StagedIn, Arriving, Candidates;
    StagingOnly(c, s, step.class_, step.successor);
    StagingArrives(c, s, step.class_, step.successor);
  }

  lemma FinalizeAnnounces(c: Scheme, s: State, step: Step)
    requires step.Finalize?
    ensures Announces(c, s, step, Apply(c, s, step).0)
  {
    hide StageAdmission, Arriving;
    if step.session in s.sessions {
      var session := s.sessions[step.session];
      var closed := s.(sessions := s.sessions - {step.session}, pending := s.pending - {session.candidate});
      StagingOnly(c, closed, session.target, session.candidate);
      StagingArrives(c, closed, session.target, session.candidate);
      assert session.candidate in Candidates(s.sessions);
    }
  }

  lemma OpeningAnnounces(c: Scheme, s: State, step: Step)
    requires step.Init? || step.Start? || step.Attest?
    ensures Announces(c, s, step, Apply(c, s, step).0)
  {
    hide Remaining, VerifyChain, RootsIn, Arriving;
    if step.Attest? && step.session in s.sessions {
      assert s.sessions[step.session].candidate in Candidates(s.sessions);
    }
  }

  lemma AdvanceOnTheWay(c: Scheme, s: State)
    requires Primitives(c) && Core(c, s)
    ensures OnTheWay(AdvanceEpoch(c, s).0) <= OnTheWay(s)
  {
    hide Core, Boundary, LandedAll;
    AdvanceValue(c, s);
    BoundaryFields(c, s);
  }

  lemma ExecuteOnTheWay(c: Scheme, s: State, subject: Bytes32)
    requires Primitives(c) && Core(c, s)
    ensures OnTheWay(Execute(c, s, subject).0) <= OnTheWay(s)
  {
    hide Core, Execute, AdvanceEpoch, Arriving, Candidates;
    if Executes(s, subject) {
      ConsumedKeeps(c, s, subject);
      ExecuteValue(c, s, subject);
      AdvanceOnTheWay(c, Consumed(s, subject));
      DissolvedOnTheWay(c, Consumed(s, subject));
    } else {
      ExecuteRefused(c, s, subject);
    }
  }

  lemma DissolvedOnTheWay(c: Scheme, s: State)
    ensures OnTheWay(Dissolve(c, s)) == {}
  {
    hide Log.Appended;
  }

  lemma OthersOnTheWay(c: Scheme, s: State, step: Step)
    requires step.Proposing? || step.Certifying? || step.Challenging?
    ensures OnTheWay(Apply(c, s, step).0) == OnTheWay(s)
  {
    hide OnTheWay, VerifyInbox, Landed, SubjectId;
    OnTheWayFields(s, Apply(c, s, step).0);
  }

  lemma ProvingOnTheWay(c: Scheme, s: State, id: Bytes32, proof: StubProof<ChainWitness>, n: Bytes32)
    ensures OnTheWay(Approve(c, s, id, proof, n).0) == OnTheWay(s)
    ensures OnTheWay(RedeemAccess(c, s, id, proof, n).0) == OnTheWay(s)
  {
    hide OnTheWay, RedeemAccess, VerifyChain, RootsIn;
    RedeemBurns(c, s, id, proof, n);
    OnTheWayFields(s, Approve(c, s, id, proof, n).0);
    OnTheWayFields(s, RedeemAccess(c, s, id, proof, n).0);
  }

  lemma OnTheWayFields(s: State, s': State)
    ensures s'.pending == s.pending && s'.sessions == s.sessions && s'.staged == s.staged ==> OnTheWay(s') == OnTheWay(s)
  {
  }

  lemma StepAnnounces(c: Scheme, s: State, step: Step)
    requires Primitives(c) && Core(c, s) && s.epoch + 1 < U64
    ensures Announces(c, s, step, Apply(c, s, step).0)
  {
    hide Core, OnTheWay, Names, Execute, AdvanceEpoch;
    if step.Migrating? {
      hide Apply;
      MigrateAnnounces(c, s, step);
    } else if step.Finalize? {
      hide Apply;
      FinalizeAnnounces(c, s, step);
    } else if step.Init? || step.Start? || step.Attest? {
      hide Apply;
      OpeningAnnounces(c, s, step);
    } else if step.Executing? {
      ExecuteOnTheWay(c, s, step.subject);
    } else if step.Advancing? {
      AdvanceOnTheWay(c, s);
    } else if step.Approving? {
      hide Approve;
      ProvingOnTheWay(c, s, step.subject, step.proof, step.nullifier);
    } else if step.Redeeming? {
      hide RedeemAccess;
      ProvingOnTheWay(c, s, step.class_, step.proof, step.challenge);
    } else {
      hide Apply;
      OthersOnTheWay(c, s, step);
    }
  }

  // ---- Landing is for good ----

  /** A leaf at an even slot of a class is one of its positions. */
  lemma SlotHolds(c: Scheme, cs: ClassState, p: nat)
    requires ClassOk(c, cs) && p < |cs.leaves| && p % 2 == 0
    ensures cs.leaves[p] in cs.positions
  {
  }

  lemma HeldStays(c: Scheme, cs: ClassState, cs': ClassState, leaf: Bytes32)
    requires ClassOk(c, cs) && ClassOk(c, cs') && cs.leaves <= cs'.leaves && leaf in cs.positions
    ensures leaf in cs'.positions
  {
    SlotHolds(c, cs', cs.positions[leaf]);
  }

  lemma LandedStays(c: Scheme, s: State, s': State, leaf: Bytes32)
    requires ClassesOk(c, s.classes) && ClassesOk(c, s'.classes) && Extends(TreesOf(s), TreesOf(s')) && Landed(s, leaf)
    ensures Landed(s', leaf)
  {
    hide ClassesOk, ClassOk;
    var k :| k in s.classes && leaf in s.classes[k].positions;
    assert k in TreesOf(s).leaves && k in TreesOf(s').leaves;
    assert s.classes[k].leaves <= s'.classes[k].leaves;
    ClassIn(c, s.classes, k);
    ClassIn(c, s'.classes, k);
    HeldStays(c, s.classes[k], s'.classes[k], leaf);
  }

  /** Across a boundary every staged leaf lands in the class it was staged for. */
  lemma StagedPlaced(c: Scheme, s: State, i: nat)
    requires Primitives(c) && Core(c, s) && CanCross(s) && i < |s.staged.admissions|
    ensures var (k, leaf) := s.staged.admissions[i]; k in Boundary(c, s).classes && leaf in Boundary(c, s).classes[k].positions
  {
    hide Core, Boundary, LandedAll, ClassesOk, ClassOk, StagedOk;
    var adm := s.staged.admissions;
    var k := adm[i].0;
    var slot := StagedIn(adm[..i], k);
    StagedAt(adm, i);
    PaddedAt(StagedFor(adm, k), slot);
    CoreLayout(c, s);
    StagedIsKnown(c, s.classes, adm, i);
    ClassIn(c, s.classes, k);
    LandedGrows(c, s, k);
    AllLands(c, s);
    BoundaryFields(c, s);
    var cs := LandedAll(c, s).classes[k];
    ClassIn(c, LandedAll(c, s).classes, k);
    EvenLength(c, s.classes[k]);
    assert cs.leaves[|s.classes[k].leaves| + 2 * slot] == adm[i].1;
    SlotHolds(c, cs, |s.classes[k].leaves| + 2 * slot);
  }

  lemma EvenLength(c: Scheme, cs: ClassState)
    requires ClassOk(c, cs)
    ensures |cs.leaves| % 2 == 0
  {
  }

  lemma StagedIsKnown(c: Scheme, classes: map<Bytes32, ClassState>, adm: Admissions, i: nat)
    requires StagedOk(c, classes, adm) && i < |adm|
    ensures adm[i].0 in classes
  {
  }

  lemma StepExtends(c: Scheme, s: State, step: Step)
    requires Primitives(c) && Core(c, s)
    ensures Extends(TreesOf(s), TreesOf(Apply(c, s, step).0))
  {
    hide Core, Apply, Boundary, Crossing, TreesOf;
    if Crossing(s, step).Some? {
      CrossingIsBoundary(c, s, step);
      LandingExtends(c, Crossing(s, step).value);
    } else {
      StepKeepsGround(c, s, step);
      ExtendsItself(TreesOf(s));
    }
  }

  lemma ExtendsItself(t: Trees)
    ensures Extends(t, t)
  {
  }

  /** Landing is for good, and whoever was staged has landed once the epoch turns. */
  lemma StepLands(c: Scheme, s: State, step: Step, leaf: Bytes32)
    requires Primitives(c) && Core(c, s)
    ensures Landed(s, leaf) ==> Landed(Apply(c, s, step).0, leaf)
    ensures Turns(c, s, step) && leaf in Arriving(s.staged.admissions) ==> Landed(Apply(c, s, step).0, leaf)
  {
    hide Core, Apply, Boundary, Crossing, ClassesOk, Landed, Extends, Welcomes;
    StepKeepsCore(c, s, step);
    CoreLayout(c, s);
    CoreLayout(c, Apply(c, s, step).0);
    StepExtends(c, s, step);
    if Landed(s, leaf) {
      LandedStays(c, s, Apply(c, s, step).0, leaf);
    }
    TurnRegisters(c, s, step);
    if Turns(c, s, step) && leaf in Arriving(s.staged.admissions) {
      CrossingIsBoundary(c, s, step);
      var pre := Crossing(s, step).value;
      CrossingStaged(s, step);
      var i :| 0 <= i < |pre.staged.admissions| && pre.staged.admissions[i].1 == leaf;
      StagedPlaced(c, pre, i);
      PlacedIsLanded(Boundary(c, pre), pre.staged.admissions[i].0, leaf);
    }
  }

  lemma PlacedIsLanded(s: State, k: Bytes32, leaf: Bytes32)
    requires k in s.classes && leaf in s.classes[k].positions
    ensures Landed(s, leaf)
  {
  }

  lemma CrossingStaged(s: State, step: Step)
    requires Crossing(s, step).Some?
    ensures Crossing(s, step).value.staged.admissions == s.staged.admissions
  {
  }

  lemma StepAnnounced(c: Scheme, w: World, step: Step)
    requires Primitives(c) && Core(c, w.s) && Announced(w.s)
    ensures Announced(Next(c, w, step).s)
  {
    hide Core, Apply, Next, Turns, Crossing, Arriving, Names, Instructs, Landed, OnTheWay;
    var s, s' := w.s, Next(c, w, step).s;
    NextFields(c, w, step);
    StepEpoch(c, s, step);
    if s'.epoch + 1 < U64 {
      StepAnnounces(c, s, step);
      forall leaf | leaf in OnTheWay(s') ensures leaf in s'.stagedInboxes || Landed(s', leaf) {
        StepLands(c, s, step, leaf);
        StepReplays(c, w, step, leaf);
        TurnNames(c, s, step, leaf);
      }
    }
  }

  lemma TurnNames(c: Scheme, s: State, step: Step, leaf: Bytes32)
    requires Primitives(c) && Core(c, s)
    ensures Turns(c, s, step) ==> Names(c, s, step, leaf) == None
  {
    hide Core, Apply, Turns, Welcomes;
    TurnRegisters(c, s, step);
  }

  lemma {:induction false} RunAnnounced(c: Scheme, w: World, steps: seq<Step>)
    requires Primitives(c) && Sound(c, w) && Announced(w.s)
    ensures Announced(Run(c, w, steps).s)
  {
    hide Sound, Announced, Next;
    if |steps| > 0 {
      RunAnnounced(c, w, steps[..|steps| - 1]);
      RunKeepsSound(c, w, steps[..|steps| - 1]);
      SoundHasCore(c, Run(c, w, steps[..|steps| - 1]));
      StepAnnounced(c, Run(c, w, steps[..|steps| - 1]), steps[|steps| - 1]);
    }
  }

  lemma GenesisAnnounced(c: Scheme, start: OperatorSafety.Start)
    requires Founds(c, start)
    ensures Announced(Genesis(c, start).s)
  {
    hide LogSnapshot, SnapshotOf, FoundClasses, LandFounder;
  }

  // ---- How long a landed leaf is reached ----

  /** A step that puts a leaf's registration in question: its own accepted instruction, or its landing
      again under a key named since. */
  predicate Reregisters(c: Scheme, w: World, steps: seq<Step>, step: Step, leaf: Bytes32) {
    var s := Run(c, w, steps).s;
    || Instructs(c, s, step, leaf)
    || (Turns(c, s, step) && leaf in Arriving(s.staged.admissions) && NamedBy(c, w, steps, leaf).Some?)
  }

  lemma {:induction false} RegistrationHolds(c: Scheme, w: World, steps: seq<Step>, more: seq<Step>, founded: Option<InboxRecord>, leaf: Bytes32)
    requires forall j :: 0 <= j < |more| ==> !Reregisters(c, w, steps + more[..j], more[j], leaf)
    ensures RegisteredBy(c, w, steps + more, founded, leaf) == RegisteredBy(c, w, steps, founded, leaf)
  {
    hide Turns, Arriving, NamedBy, Instructs, Instructed, Run;
    if |more| > 0 {
      var init := more[..|more| - 1];
      forall j | 0 <= j < |init| ensures !Reregisters(c, w, steps + init[..j], init[j], leaf) {
        assert init[..j] == more[..j];
      }
      RegistrationHolds(c, w, steps, init, founded, leaf);
      assert (steps + more)[..|steps + more| - 1] == steps + init;
      assert !Reregisters(c, w, steps + more[..|more| - 1], more[|more| - 1], leaf);
    } else {
      assert steps + more == steps;
    }
  }

  /** In every run: a leaf landing for the first time in any class lands under a named key, the one
      its last accepted init or migration gave it; from then on, until its own accepted instruction
      or a landing under a newer name, it is delivered to under that key, for exactly the horizon's
      epochs and unless revoked. */
  lemma AdmittedIsReached(c: Scheme, start: OperatorSafety.Start, steps: seq<Step>, turn: Step, more: seq<Step>, leaf: Bytes32)
    requires Primitives(c) && Founds(c, start)
    requires var w := Genesis(c, start);
             && Turns(c, Run(c, w, steps).s, turn)
             && leaf in Arriving(Run(c, w, steps).s.staged.admissions)
             && (Landed(Run(c, w, steps).s, leaf) ==> NamedBy(c, w, steps, leaf).Some?)
             && (forall j :: 0 <= j < |more| ==> !Reregisters(c, w, steps + [turn] + more[..j], more[j], leaf))
    ensures var w := Genesis(c, start);
            var landing, now := Run(c, w, steps).s, Run(c, w, steps + [turn] + more).s;
            && NamedBy(c, w, steps, leaf).Some?
            && Found(now.inboxes, leaf) == Some(InboxRecord(NamedBy(c, w, steps, leaf).value, landing.epoch + 1))
            && InboxLive(now, leaf) == (if leaf !in now.revokedLeaves && now.epoch < landing.epoch + 1 + now.horizon
                                        then NamedBy(c, w, steps, leaf) else None)
  {
    hide Founds, Genesis, Sound, Next, Turns, Arriving, Names, Instructs, Instructed, Landed, Reregisters, Run, InboxLive, Announced;
    var w := Genesis(c, start);
    var before, done, all := Run(c, w, steps), steps + [turn], steps + [turn] + more;
    GenesisSound(c, start);
    GenesisAnnounced(c, start);
    RunAnnounced(c, w, steps);
    RunKeepsSound(c, w, steps);
    SoundHasCore(c, before);
    ArrivesNamed(c, before.s, turn, leaf);
    RegistrationsReplay(c, start, steps, leaf);
    assert done[..|done| - 1] == steps;
    RegistrationHolds(c, w, done, more, FoundedRecord(start.founding, leaf), leaf);
    RegistrationsReplay(c, start, all, leaf);
    assert Reachable(c, Run(c, w, all));
    RegistrationWindow(c, Run(c, w, all), leaf, NamedBy(c, w, steps, leaf).value);
    LiveIsRegistered(Run(c, w, all).s, leaf);
    ReachableIsServed(c, Run(c, w, all));
  }

  lemma LiveIsRegistered(s: State, leaf: Bytes32)
    ensures InboxLive(s, leaf).Some? ==> leaf in s.inboxes && InboxLive(s, leaf) == Some(s.inboxes[leaf].key)
  {
  }

  lemma ArrivesNamed(c: Scheme, s: State, turn: Step, leaf: Bytes32)
    requires Primitives(c) && Core(c, s) && Announced(s) && Turns(c, s, turn) && leaf in Arriving(s.staged.admissions)
    ensures leaf in s.stagedInboxes || Landed(s, leaf)
  {
    hide Core, Apply, Turns, Landed, Arriving, Welcomes;
    TurnRegisters(c, s, turn);
    CrossesBelow(s, turn);
    assert leaf in OnTheWay(s);
  }

  lemma CrossesBelow(s: State, turn: Step)
    ensures Crossing(s, turn).Some? ==> s.epoch + 1 < U64
  {
  }
}
