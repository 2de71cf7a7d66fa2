/** Who is pending and which challenges are outstanding, over every run: told from what was asked and
    answered since the founding. */
module OperatorIntake {
  import opened Wrappers
  import opened Bytes
  import opened Crypto
  import opened Exclusion
  import opened Statements
  import opened Decisions
  import opened Operator
  import opened OperatorLayout
  import opened OperatorRuns
  import opened OperatorReceipts
  import opened OperatorSafety
  import opened OperatorSessions
  import opened OperatorAnswers
  import opened OperatorRegistrations

  // ---- What each step does ----

  ghost predicate SameIntake(s: State, s': State) {
    s'.pending == s.pending && s'.challenges == s.challenges
  }

  /** The leaf is vouched for: its session counted its threshold and is finalized. */
  predicate Vouches(s: State, step: Step, leaf: Bytes32) {
    !s.dissolved && step.Finalize? && Endorsed(s, step.session) && s.sessions[step.session].candidate == leaf
  }

  /** The step ends the agora. */
  predicate Ends(c: Scheme, s: State, step: Step) {
    !s.dissolved && Apply(c, s, step).0.dissolved
  }

  /** Whether a leaf is pending after a step. */
  predicate PendsAfter(c: Scheme, s: State, step: Step, leaf: Bytes32, before: bool) {
    if step.Init? && step.commitment == leaf && Apply(c, s, step).1.Ok? then true
    else before && !Vouches(s, step, leaf) && !Ends(c, s, step)
  }

  /** Whether a challenge is outstanding after a step. */
  predicate StandsAfter(c: Scheme, s: State, step: Step, challenge: Bytes32, before: bool) {
    if step.Challenging? && step.entropy == challenge && Apply(c, s, step).1.Ok? then true
    else before && !Turns(c, s, step) && !Ends(c, s, step) && !(step.Redeeming? && step.challenge == challenge && !s.dissolved)
  }

  ghost predicate Takes(c: Scheme, s: State, step: Step, s': State) {
    && (forall leaf :: leaf in s'.pending <==> PendsAfter(c, s, step, leaf, leaf in s.pending))
    && (forall x :: x in s'.challenges <==> StandsAfter(c, s, step, x, x in s.challenges))
  }

  lemma AdvanceTakes(c: Scheme, s: State)
    requires Primitives(c) && Core(c, s)
    ensures Takes(c, s, Advancing, AdvanceEpoch(c, s).0)
  {
    hide Core, Boundary, LandedAll, AdvanceEpoch;
    AdvanceValue(c, s);
    BoundaryFields(c, s);
  }

  lemma ExecuteTakes(c: Scheme, s: State, subject: Bytes32)
    requires Primitives(c) && Core(c, s)
    ensures Takes(c, s, Executing(subject), Execute(c, s, subject).0)
  {
    hide Core, Boundary, LandedAll, Execute, AdvanceEpoch;
    if Executes(s, subject) {
      ConsumedKeeps(c, s, subject);
      ExecuteValue(c, s, subject);
      AdvanceValue(c, Consumed(s, subject));
      BoundaryFields(c, Consumed(s, subject));
      ConsumedFields(s, subject);
      EffectTakes(c, Consumed(s, subject), s.proposals[subject].decision);
    } else {
      ExecuteRefused(c, s, subject);
    }
  }

  lemma ConsumedFields(s: State, subject: Bytes32)
    requires subject in s.proposals
    ensures var d := Consumed(s, subject);
            && SameIntake(s, d) && d.epoch == s.epoch && d.dissolved == s.dissolved
  {
  }

  /** A decision ends the agora and drops both, turns the epoch and drops the challenges, or touches
      neither. */
  lemma EffectTakes(c: Scheme, s: State, d: Decision)
    requires Primitives(c) && Core(c, s) && !s.dissolved
    ensures var s' := Effect(c, s, d);
            if s'.dissolved then s'.pending == {} && s'.challenges == {} && s'.epoch == s.epoch
            else if s'.epoch != s.epoch then s'.pending == s.pending && s'.challenges == {}
            else SameIntake(s, s')
  {
    hide Core, Boundary, LandedAll, Log.Appended;
    AdvanceValue(c, s);
    BoundaryFields(c, s);
  }

  lemma FinalizeFields(c: Scheme, s: State, id: Bytes32)
    ensures var s' := VouchFinalize(c, s, id).0;
            && s'.challenges == s.challenges && s'.epoch == s.epoch && s'.dissolved == s.dissolved
            && s'.pending == if !s.dissolved && Endorsed(s, id) then s.pending - {s.sessions[id].candidate} else s.pending
  {
    hide StageAdmission;
    if id in s.sessions {
      var session := s.sessions[id];
      StagingOnly(c, s.(sessions := s.sessions - {id}, pending := s.pending - {session.candidate}), session.target, session.candidate);
    }
  }

  lemma FinalizeTakes(c: Scheme, s: State, id: Bytes32)
    ensures Takes(c, s, Finalize(id), VouchFinalize(c, s, id).0)
  {
    hide VouchFinalize, Endorsed;
    FinalizeFields(c, s, id);
  }

  lemma MigrateTakes(c: Scheme, s: State, step: Step)
    requires step.Migrating?
    ensures Takes(c, s, step, Apply(c, s, step).0)
  {
    hide Migrate;
    MigrateOnly(c, s, step.class_, step.consent, step.spend, step.successor, step.inbox);
  }

  lemma ProvingTakes(c: Scheme, s: State, step: Step)
    requires step.Attest? || step.Approving?
    ensures Takes(c, s, step, Apply(c, s, step).0)
  {
    hide VerifyChain, RootsIn;
  }

  lemma RedeemTakes(c: Scheme, s: State, step: Step)
    requires step.Redeeming?
    ensures Takes(c, s, step, Apply(c, s, step).0)
  {
    hide RedeemAccess;
    RedeemBurns(c, s, step.class_, step.proof, step.challenge);
  }

  lemma OpeningTakes(c: Scheme, s: State, step: Step)
    requires step.Init? || step.Start? || step.Challenging?
    ensures Takes(c, s, step, Apply(c, s, step).0)
  {
    hide Remaining;
  }

  lemma ProposingTakes(c: Scheme, s: State, step: Step)
    requires step.Proposing?
    ensures Takes(c, s, step, Apply(c, s, step).0)
  {
    hide SubjectId;
  }

  lemma CertifyingTakes(c: Scheme, s: State, step: Step)
    requires step.Certifying?
    ensures Takes(c, s, step, Apply(c, s, step).0)
  {
    hide VerifyInbox, Landed;
  }

  lemma StepTakes(c: Scheme, s: State, step: Step)
    requires Primitives(c) && Core(c, s)
    ensures Takes(c, s, step, Apply(c, s, step).0)
  {
    hide Core, Takes, Execute, AdvanceEpoch;
    if step.Executing? {
      ExecuteTakes(c, s, step.subject);
    } else if step.Advancing? {
      AdvanceTakes(c, s);
    } else {
      hide Apply;
      if step.Finalize? {
        FinalizeIsApplied(c, s, step);
      } else if step.Migrating? {
        MigrateTakes(c, s, step);
      } else if step.Attest? || step.Approving? {
        ProvingTakes(c, s, step);
      } else if step.Redeeming? {
        RedeemTakes(c, s, step);
      } else if step.Proposing? {
        ProposingTakes(c, s, step);
      } else if step.Certifying? {
        CertifyingTakes(c, s, step);
      } else {
        OpeningTakes(c, s, step);
      }
    }
  }

  lemma FinalizeIsApplied(c: Scheme, s: State, step: Step)
    requires step.Finalize?
    ensures Takes(c, s, step, Apply(c, s, step).0)
  {
    hide Takes, VouchFinalize;
    FinalizeTakes(c, s, step.session);
  }

  // ---- Replaying a run ----

  predicate PendingBy(c: Scheme, w: World, steps: seq<Step>, leaf: Bytes32) {
    |steps| > 0
    && PendsAfter(c, Run(c, w, steps[..|steps| - 1]).s, steps[|steps| - 1], leaf, PendingBy(c, w, steps[..|steps| - 1], leaf))
  }

  predicate OutstandingBy(c: Scheme, w: World, steps: seq<Step>, challenge: Bytes32) {
    |steps| > 0
    && StandsAfter(c, Run(c, w, steps[..|steps| - 1]).s, steps[|steps| - 1], challenge, OutstandingBy(c, w, steps[..|steps| - 1], challenge))
  }

  /** In every run a leaf is pending exactly from an accepted init until it is vouched for or the agora
      ends, and a challenge outstanding exactly from its issue until it is presented, the epoch turns
      or the agora ends. */
  lemma {:induction false} IntakeReplays(c: Scheme, start: OperatorSafety.Start, steps: seq<Step>, x: Bytes32)
    requires Primitives(c) && Founds(c, start)
    ensures x in Run(c, Genesis(c, start), steps).s.pending <==> PendingBy(c, Genesis(c, start), steps, x)
    ensures x in Run(c, Genesis(c, start), steps).s.challenges <==> OutstandingBy(c, Genesis(c, start), steps, x)
  {
    hide Founds, Genesis, Sound, Next, PendsAfter, StandsAfter, Apply;
    if |steps| == 0 {
      GenesisTakesNothing(c, start);
    } else {
      var init, step := steps[..|steps| - 1], steps[|steps| - 1];
      var before := Run(c, Genesis(c, start), init);
      IntakeReplays(c, start, init, x);
      GenesisSound(c, start);
      RunKeepsSound(c, Genesis(c, start), init);
      SoundHasCore(c, before);
      StepTakes(c, before.s, step);
      NextFields(c, before, step);
    }
  }

  lemma GenesisTakesNothing(c: Scheme, start: OperatorSafety.Start)
    requires Founds(c, start)
    ensures Genesis(c, start).s.pending == {} && Genesis(c, start).s.challenges == {}
  {
    hide LogSnapshot, SnapshotOf, FoundClasses, LandFounder;
  }

  /** So access granted for a challenge is granted once: presented again before it is issued again, the
      same challenge gets nothing, whatever proof comes with it. */
  lemma {:induction false} GrantedOnce(c: Scheme, w: World, k: Bytes32, proof: StubProof<ChainWitness>, challenge: Bytes32,
                                       more: seq<Step>, k': Bytes32, proof': StubProof<ChainWitness>)
    requires Primitives(c) && Reachable(c, w) && RedeemAccess(c, w.s, k, proof, challenge).1.Ok?
    requires forall i :: 0 <= i < |more| ==> !(more[i].Challenging? && more[i].entropy == challenge)
    ensures RedeemAccess(c, Run(c, Next(c, w, Redeeming(k, proof, challenge)), more).s, k', proof', challenge).1.Err?
  {
    hide Reachable, Sound, Next, Run;
    ReachableIsSound(c, w);
    var after := Next(c, w, Redeeming(k, proof, challenge));
    StepKeepsSound(c, w, Redeeming(k, proof, challenge));
    NextFields(c, w, Redeeming(k, proof, challenge));
    RedeemBurns(c, w.s, k, proof, challenge);
    hide RedeemAccess;
    StaysSpent(c, after, more, challenge);
    SpentIsRefused(c, Run(c, after, more).s, k', proof', challenge);
  }

  lemma SpentIsRefused(c: Scheme, s: State, k: Bytes32, proof: StubProof<ChainWitness>, challenge: Bytes32)
    requires challenge !in s.challenges
    ensures RedeemAccess(c, s, k, proof, challenge).1.Err?
  {
  }

  lemma {:induction false} StaysSpent(c: Scheme, w: World, more: seq<Step>, challenge: Bytes32)
    requires Primitives(c) && Sound(c, w) && challenge !in w.s.challenges
    requires forall i :: 0 <= i < |more| ==> !(more[i].Challenging? && more[i].entropy == challenge)
    ensures challenge !in Run(c, w, more).s.challenges
  {
    hide Sound, Next, Apply;
    if |more| > 0 {
      var init, step := more[..|more| - 1], more[|more| - 1];
      StaysSpent(c, w, init, challenge);
      RunKeepsSound(c, w, init);
      SoundHasCore(c, Run(c, w, init));
      StepTakes(c, Run(c, w, init).s, step);
      NextFields(c, Run(c, w, init), step);
    }
  }
}
