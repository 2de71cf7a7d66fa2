/** Revocation is permanent: what every run keeps of an executed revocation. */
module OperatorRevocation {
  import opened Wrappers
  import opened Bytes
  import opened Crypto
  import opened BatchTree
  import opened Exclusion
  import opened Statements
  import opened Decisions
  import opened Operator
  import opened OperatorLayout
  import opened OperatorRuns
  import opened OperatorReceipts
  import opened OperatorSafety
  import opened OperatorMembership

  /** The state right after a leaf was revoked. */
  ghost predicate RevokedInto(c: Scheme, s: State, leaf: Bytes32, s': State) {
    && s'.epoch == s.epoch + 1
    && s'.sessions == map[] && s'.proposals == map[] && s'.challenges == {}
    && leaf in s'.revokedLeaves
    && OrderOf(RevocationKey(c, leaf)) in s'.revocations
  }

  lemma RevocationLands(c: Scheme, leaves: seq<Bytes32>, leaf: Bytes32)
    ensures leaf in Members(leaves + [leaf])
    ensures OrderOf(RevocationKey(c, leaf)) in RevocationKeys(c, leaves + [leaf])
  {
    hide OrderOf, RevocationKey;
    var more := leaves + [leaf];
    assert more[|leaves|] == leaf;
    assert OrderOf(RevocationKey(c, more[|leaves|])) in RevocationKeys(c, more);
  }

  lemma RevokeCrosses(c: Scheme, s: State, subject: Bytes32)
    requires Primitives(c) && Core(c, s) && Executes(s, subject) && s.proposals[subject].decision.Revocation?
    ensures Execute(c, s, subject).1.Ok? <==> Live(s)
    ensures Live(s) ==> Crossing(s, Executing(subject)) == Some(Consumed(s, subject))
  {
    hide Core, Boundary, LandedAll;
    ConsumedKeeps(c, s, subject);
    AdvanceValue(c, Consumed(s, subject));
    ExecuteAnswer(c, s, subject);
  }

  lemma ExecuteAnswer(c: Scheme, s: State, subject: Bytes32)
    requires Executes(s, subject) && s.proposals[subject].decision.Revocation?
    ensures Execute(c, s, subject).1.Ok? <==> AdvanceEpoch(c, Consumed(s, subject)).1.Ok?
  {
    hide AdvanceEpoch;
  }

  /** Executing a revocation is itself a boundary: the epoch has turned, everything open is gone,
      and the leaf is on record in both sets. */
  lemma ExecuteRevokes(c: Scheme, s: State, subject: Bytes32)
    requires Primitives(c) && Core(c, s) && Execute(c, s, subject).1 == Ok(Revoked)
    ensures subject in s.proposals && s.proposals[subject].decision.Revocation?
    ensures RevokedInto(c, s, s.proposals[subject].decision.leaf, Execute(c, s, subject).0)
  {
    hide Core, Boundary, LandedAll, AdvanceEpoch, RevocationKeys, Members, OrderOf, RevocationKey;
    var pre, leaf := Consumed(s, subject), s.proposals[subject].decision.leaf;
    RevokeCrosses(c, s, subject);
    ConsumedKeeps(c, s, subject);
    ExecuteValue(c, s, subject);
    AdvanceValue(c, pre);
    BoundaryFields(c, pre);
    RevocationLands(c, s.staged.revocations, leaf);
  }

  /** In every later world the leaf is still revoked, and so is it in the tree of every epoch
      from the revocation on. */
  lemma RevokedStays(c: Scheme, w: World, steps: seq<Step>, leaf: Bytes32, e: nat)
    requires Primitives(c) && Sound(c, w) && leaf in w.s.revokedLeaves && OrderOf(RevocationKey(c, leaf)) in w.s.revocations
    requires e in Run(c, w, steps).g.past && e >= w.s.epoch
    ensures leaf in Run(c, w, steps).s.revokedLeaves
    ensures OrderOf(RevocationKey(c, leaf)) in Run(c, w, steps).g.past[e].revoked
  {
    hide Sound, Run, Growing, OrderOf, RevocationKey;
    var w' := Run(c, w, steps);
    RunIsLater(c, w, steps);
    RunKeepsSound(c, w, steps);
    NowCovered(c, w);
    SoundGrows(c, w', w.s.epoch, e);
  }

  lemma SoundGrows(c: Scheme, w: World, e: nat, e': nat)
    requires Sound(c, w) && e in w.g.past && e' in w.g.past && e <= e'
    ensures Extends(w.g.past[e], w.g.past[e'])
  {
    hide Core, Covered;
    GrewFrom(w.g.past, e, e');
  }

  /** A revoked leaf is addressed by nothing: no ciphertext is produced for it. */
  lemma RevokedIsUnaddressed(s: State, leaf: Bytes32)
    requires leaf in s.revokedLeaves
    ensures InboxLive(s, leaf) == None
  {
  }

  lemma AbsenceDenied(c: Scheme, w: World, e: nat, leaf: Bytes32, opened_: Bytes32, x: AbsenceWitness, root: Bytes32, q: set<seq<F>>)
    requires Primitives(c) && Sound(c, w) && e in w.g.past && AbsenceType(c, x)
    requires OrderOf(RevocationKey(c, leaf)) in w.g.past[e].revoked && Value(opened_) == Value(leaf)
    requires e in w.s.history && root == w.s.history[e].revocation
    requires AbsenceQueries(c, w.g.past[e].revoked, x) <= q && CollisionFree(c, q)
    ensures !VerifiesAbsent(c, RevocationKey(c, opened_), x, root)
  {
    hide Sound, AbsenceQueries, CollisionFree, OrderOf, VerifiesAbsent, SetRoot;
    PastRoots(c, w, e);
    PastDomains(c, w, e);
    if VerifiesAbsent(c, RevocationKey(c, opened_), x, root) {
      AbsenceSound(c, w.g.past[e].revoked, RevocationKey(c, opened_), x, q);
    }
  }

  /** Revocation is permanent. After it executes and whatever steps follow: the epoch has turned
      and everything open was closed; the leaf is addressed by no envelope; and under any later
      epoch's revocation root no chain statement opening it holds. */
  lemma RevocationIsPermanent(c: Scheme, w: World, subject: Bytes32, steps: seq<Step>, e: nat,
                              x: ChainWitness, p: ChainPublic, q: set<seq<F>>)
    requires Primitives(c) && Reachable(c, w) && Execute(c, w.s, subject).1 == Ok(Revoked)
    requires var w' := Run(c, Next(c, w, Executing(subject)), steps);
             && e in w'.g.past && e > w.s.epoch && e in w'.s.history
             && p.revocationRoot == w'.s.history[e].revocation
             && AbsenceQueries(c, w'.g.past[e].revoked, x.revocationAbsence) <= q
    requires ChainType(c, x) && CollisionFree(c, q)
    ensures subject in w.s.proposals && w.s.proposals[subject].decision.Revocation?
    ensures var leaf := w.s.proposals[subject].decision.leaf;
            && RevokedInto(c, w.s, leaf, Next(c, w, Executing(subject)).s)
            && InboxLive(Run(c, Next(c, w, Executing(subject)), steps).s, leaf) == None
            && (ChainHolds(c, x, p) ==>
                  OpenedLeaf(c, x, p.agora).Some? && Value(OpenedLeaf(c, x, p.agora).value) != Value(leaf))
  {
    hide Reachable, Sound, Run, Execute, AbsenceQueries, CollisionFree, OrderOf, RevocationKey, VerifiesAbsent, Verifies,
      EpochKeyCertified, ActionDerived, OpenedLeaf, SpendNullifier, PastAfter, Issued;
    ReachableIsSound(c, w);
    SoundCore(c, w);
    ExecuteRevokes(c, w.s, subject);
    StepKeepsSound(c, w, Executing(subject));
    var leaf, after := w.s.proposals[subject].decision.leaf, Next(c, w, Executing(subject));
    RunKeepsSound(c, after, steps);
    RevokedStays(c, after, steps, leaf, e);
    RevokedIsUnaddressed(Run(c, after, steps).s, leaf);
    if ChainHolds(c, x, p) && Value(OpenedLeaf(c, x, p.agora).value) == Value(leaf) {
      AbsenceDenied(c, Run(c, after, steps), e, leaf, OpenedLeaf(c, x, p.agora).value, x.revocationAbsence, p.revocationRoot, q);
    }
  }

  lemma SoundCore(c: Scheme, w: World)
    requires Sound(c, w)
    ensures Core(c, w.s)
  {
    hide Core;
  }

  /** Nor does any migration statement opening it. */
  lemma RevokedNeverMigrates(c: Scheme, w: World, subject: Bytes32, steps: seq<Step>, e: nat,
                             x: MigrationWitness, p: MigrationPublic, q: set<seq<F>>)
    requires Primitives(c) && Reachable(c, w) && Execute(c, w.s, subject).1 == Ok(Revoked)
    requires var w' := Run(c, Next(c, w, Executing(subject)), steps);
             && e in w'.g.past && e > w.s.epoch && e in w'.s.history
             && p.revocationRoot == w'.s.history[e].revocation
             && AbsenceQueries(c, w'.g.past[e].revoked, x.revocationAbsence) <= q
    requires MigrationType(c, x) && CollisionFree(c, q)
    ensures subject in w.s.proposals && w.s.proposals[subject].decision.Revocation?
    ensures MigrationHolds(c, x, p) ==>
              && OldLeaf(c, x, p.agora).Some?
              && Value(OldLeaf(c, x, p.agora).value) != Value(w.s.proposals[subject].decision.leaf)
  {
    hide Reachable, Sound, Run, Execute, AbsenceQueries, CollisionFree, OrderOf, RevocationKey, VerifiesAbsent, Verifies,
      SuccessorAuthorized, OldLeaf, SpendNullifier, PastAfter, Issued;
    ReachableIsSound(c, w);
    SoundCore(c, w);
    ExecuteRevokes(c, w.s, subject);
    StepKeepsSound(c, w, Executing(subject));
    var leaf, after := w.s.proposals[subject].decision.leaf, Next(c, w, Executing(subject));
    RunKeepsSound(c, after, steps);
    RevokedStays(c, after, steps, leaf, e);
    if MigrationHolds(c, x, p) && Value(OldLeaf(c, x, p.agora).value) == Value(leaf) {
      AbsenceDenied(c, Run(c, after, steps), e, leaf, OldLeaf(c, x, p.agora).value, x.revocationAbsence, p.revocationRoot, q);
    }
  }
}

/** What revocation means at the boundary envelope. */
module RevokedDelivery {
  import opened Wrappers
  import opened Bytes
  import opened Crypto
  import opened Statements
  import opened Decisions
  import opened Operator
  import opened OperatorRuns
  import opened OperatorSafety
  import opened OperatorRevocation
  import OperatorMembership
  import opened Bulletins

  lemma RevokedInRun(c: Scheme, w: World, subject: Bytes32, steps: seq<Step>)
    requires Primitives(c) && Reachable(c, w) && Execute(c, w.s, subject).1 == Ok(Revoked)
    ensures subject in w.s.proposals && w.s.proposals[subject].decision.Revocation?
    ensures Reachable(c, Run(c, Next(c, w, Executing(subject)), steps))
    ensures w.s.proposals[subject].decision.leaf in Run(c, Next(c, w, Executing(subject)), steps).s.revokedLeaves
  {
    hide Reachable, Sound, Run, Next, Execute, RevocationKey;
    ReachableIsSound(c, w);
    SoundCore(c, w);
    ExecuteRevokes(c, w.s, subject);
    NextIsRun(c, w, Executing(subject));
    RunReachable(c, w, [Executing(subject)]);
    StepKeepsSound(c, w, Executing(subject));
    var after := Next(c, w, Executing(subject));
    NextState(c, w, subject);
    RunReachable(c, after, steps);
    OperatorMembership.RunIsLater(c, after, steps);
  }

  lemma NextState(c: Scheme, w: World, subject: Bytes32)
    ensures Next(c, w, Executing(subject)).s == Execute(c, w.s, subject).0
  {
    hide Execute, Issued, PastAfter;
  }

  /** A revoked leaf is delivered to never again: after its revocation executes and whatever steps
      follow, every ciphertext of the envelope is another leaf's own, and none is the revoked
      one's. */
  lemma RevokedNeverAddressed(c: Scheme, w: World, subject: Bytes32, steps: seq<Step>, x: Ciphertext, k: Bytes32)
    requires Primitives(c) && Reachable(c, w) && Execute(c, w.s, subject).1 == Ok(Revoked)
    requires var s' := Run(c, Next(c, w, Executing(subject)), steps).s;
             s'.epoch in s'.history && x in EnvelopeOf(c, s').ciphertexts
    ensures subject in w.s.proposals && w.s.proposals[subject].decision.Revocation?
    ensures var s', leaf := Run(c, Next(c, w, Executing(subject)), steps).s, w.s.proposals[subject].decision.leaf;
            && !Addressed(c, s', x, k, leaf)
            && exists k', other :: other != leaf && Addressed(c, s', x, k', other)
  {
    hide Reachable, Run, Next, Execute, EnvelopeOf, CiphertextFor;
    RevokedInRun(c, w, subject, steps);
    var after, leaf := Run(c, Next(c, w, Executing(subject)), steps), w.s.proposals[subject].decision.leaf;
    RevokedIsUnaddressed(after.s, leaf);
    EnvelopeAddressesMembers(c, after, x);
    var k', other :| Addressed(c, after.s, x, k', other) && other !in after.s.revokedLeaves;
    assert other != leaf && Addressed(c, after.s, x, k', other);
  }
}
