/** Class layout, staging and governance: what every transition keeps of the live state. */
module OperatorLayout {
  import opened Wrappers
  import opened Bytes
  import opened Crypto
  import opened Merkle
  import opened BatchTree
  import opened Exclusion
  import opened Statements
  import opened Decisions
  import opened Operator
  import opened Log

  type Admissions = seq<(Bytes32, Bytes32)>

  /** Leaves at even positions only, empty neighbours, and `positions` their exact inverse: so
      each leaf at most once. */
  ghost predicate ClassOk(c: Scheme, cs: ClassState) {
    && |cs.leaves| == 2 * cs.occupied
    && cs.occupied <= Capacity(c)
    && (forall p :: 0 <= p < |cs.leaves| ==>
          if p % 2 == 1 then cs.leaves[p] == PAD
          else cs.leaves[p] in cs.positions && cs.positions[cs.leaves[p]] == p)
    && (forall l :: l in cs.positions ==>
          cs.positions[l] < |cs.leaves| && cs.positions[l] % 2 == 0 && cs.leaves[cs.positions[l]] == l)
  }

  /** The classes not laid out so. */
  ghost function Misplaced(c: Scheme, classes: map<Bytes32, ClassState>): set<Bytes32> {
    set k | k in classes && !ClassOk(c, classes[k])
  }

  ghost predicate ClassesOk(c: Scheme, classes: map<Bytes32, ClassState>) {
    Misplaced(c, classes) == {}
  }

  lemma ClassIn(c: Scheme, classes: map<Bytes32, ClassState>, k: Bytes32)
    requires ClassesOk(c, classes) && k in classes
    ensures ClassOk(c, classes[k])
  {
    assert k !in Misplaced(c, classes);
  }

  /** Staged admissions are new to their class, pairwise distinct, and fit beside what landed. */
  ghost predicate StagedOk(c: Scheme, classes: map<Bytes32, ClassState>, adm: Admissions) {
    && (forall i :: 0 <= i < |adm| ==> adm[i].0 in classes && adm[i].1 !in classes[adm[i].0].positions)
    && (forall i, j :: 0 <= i < j < |adm| ==> adm[i] != adm[j])
    && (forall k :: k in classes ==> classes[k].occupied + StagedIn(adm, k) <= Capacity(c))
  }

  /** An open proposal could validly execute. */
  ghost predicate ProposalOk(classes: map<Bytes32, ClassState>, p: Proposal) {
    p.approving in classes && DecisionOk(classes, p.decision)
  }

  ghost predicate DecisionOk(classes: map<Bytes32, ClassState>, d: Decision) {
    && (d.Policy? ==> d.class_ in classes && d.threshold >= 1 && d.quorum >= 1)
    && (d.InboxHorizon? ==> d.boundaries >= MIN_INBOX_HORIZON)
  }

  ghost predicate PolicyOk(classes: map<Bytes32, ClassState>, p: ClassPolicy) {
    p.threshold >= 1 && p.voucherClass in classes
  }

  ghost predicate PoliciesOk(classes: map<Bytes32, ClassState>) {
    forall k :: k in classes ==> PolicyOk(classes, classes[k].policy)
  }

  ghost predicate ProposalsOk(classes: map<Bytes32, ClassState>, proposals: map<Bytes32, Proposal>) {
    forall p :: p in proposals ==> ProposalOk(classes, proposals[p])
  }

  ghost predicate NothingOpen(s: State) {
    s.sessions == map[] && s.proposals == map[] && s.challenges == {} && s.staged == NOTHING_STAGED
  }

  /** What holds of the operator's state at every moment, named. */
  datatype Invariant =
    | Layout        // every class is laid out as above
    | Staging       // what is staged can land
    | Domains       // both exclusion sets hold truncated keys
    | Thresholds    // every class policy is at least one and names a voucher class
    | Proposals     // every open proposal could validly execute
    | Floors        // the quorum is at least one, the horizon at least its floor, the epoch a u64
    | Quiet         // a dissolved agora has nothing open and nothing staged

  ghost predicate Holds(c: Scheme, s: State, i: Invariant) {
    match i
    case Layout => ClassesOk(c, s.classes)
    case Staging => StagedOk(c, s.classes, s.staged.admissions)
    case Domains => InDomain(s.revocations) && InDomain(s.spends)
    case Thresholds => PoliciesOk(s.classes)
    case Proposals => ProposalsOk(s.classes, s.proposals)
    case Floors => s.quorum >= 1 && s.horizon >= MIN_INBOX_HORIZON && s.epoch < U64
    case Quiet => s.dissolved ==> NothingOpen(s)
  }

  ghost function Broken(c: Scheme, s: State): set<Invariant> {
    set i: Invariant | !Holds(c, s, i)
  }

  ghost predicate Core(c: Scheme, s: State) {
    Broken(c, s) == {}
  }

  lemma CoreLayout(c: Scheme, s: State)
    requires Core(c, s)
    ensures ClassesOk(c, s.classes) && StagedOk(c, s.classes, s.staged.admissions)
  {
    assert Layout !in Broken(c, s) && Staging !in Broken(c, s);
  }

  lemma CoreSets(c: Scheme, s: State)
    requires Core(c, s)
    ensures InDomain(s.revocations) && InDomain(s.spends)
  {
    assert Domains !in Broken(c, s);
  }

  lemma CoreGoverned(c: Scheme, s: State)
    requires Core(c, s)
    ensures PoliciesOk(s.classes) && ProposalsOk(s.classes, s.proposals)
    ensures s.quorum >= 1 && s.horizon >= MIN_INBOX_HORIZON && s.epoch < U64
    ensures s.dissolved ==> NothingOpen(s)
  {
    assert Thresholds !in Broken(c, s) && Proposals !in Broken(c, s) && Floors !in Broken(c, s) && Quiet !in Broken(c, s);
  }

  /** A state without what the core does not speak of. */
  function Bare(s: State): State {
    s.(sessions := map[], pending := {}, challenges := {}, log := None, history := map[], inboxes := map[],
       stagedInboxes := map[], agora := ZERO32, tagSecret := ZERO32, statementSeed := ZERO32, revokedLeaves := {})
  }

  /** Live states that agree on everything else share the core. */
  lemma FrameKeeps(c: Scheme, s: State, s': State)
    requires Core(c, s) && !s'.dissolved && Bare(s') == Bare(s)
    ensures Core(c, s')
  {
    CoreLayout(c, s);
    CoreSets(c, s);
    CoreGoverned(c, s);
  }

  lemma StagingKeeps(c: Scheme, s: State, s': State)
    requires Core(c, s) && !s'.dissolved && Bare(s'.(staged := s.staged)) == Bare(s)
    requires StagedOk(c, s.classes, s'.staged.admissions)
    ensures Core(c, s')
  {
    CoreLayout(c, s);
    CoreSets(c, s);
    CoreGoverned(c, s);
  }

  lemma ProposalsKeep(c: Scheme, s: State, s': State)
    requires Core(c, s) && !s'.dissolved && Bare(s'.(proposals := s.proposals)) == Bare(s)
    requires ProposalsOk(s.classes, s'.proposals)
    ensures Core(c, s')
  {
    CoreLayout(c, s);
    CoreSets(c, s);
    CoreGoverned(c, s);
  }

  // ---- Landing ----

  /** A landed leaf and the empty value beside it, for each leaf in turn. */
  function Padded(leaves: seq<Bytes32>): (p: seq<Bytes32>)
    ensures |p| == 2 * |leaves|
  {
    if |leaves| == 0 then [] else [leaves[0], PAD] + Padded(leaves[1..])
  }

  lemma {:induction false} PaddedAt(leaves: seq<Bytes32>, i: nat)
    requires i < |leaves|
    ensures Padded(leaves)[2 * i] == leaves[i]
  {
    if i > 0 {
      PaddedAt(leaves[1..], i - 1);
    }
  }

  lemma CapacityIsHalf(c: Scheme)
    requires Primitives(c)
    ensures Pow2(c.depth) == 2 * Capacity(c)
  {
  }

  function WithLeaf(cs: ClassState, leaf: Bytes32): ClassState {
    cs.(leaves := cs.leaves + [leaf, PAD], occupied := cs.occupied + 1, positions := cs.positions[leaf := |cs.leaves|])
  }

  /** Where there is room a leaf goes to the end of the tree with an empty neighbour after it. */
  lemma LandValue(c: Scheme, cs: ClassState, leaf: Bytes32)
    requires Primitives(c) && |cs.leaves| == 2 * cs.occupied && cs.occupied < Capacity(c)
    ensures Land(c, cs, leaf) == Some(WithLeaf(cs, leaf))
  {
    CapacityIsHalf(c);
    assert cs.leaves + [leaf] + [PAD] == cs.leaves + [leaf, PAD];
  }

  lemma LandKeeps(c: Scheme, cs: ClassState, leaf: Bytes32)
    requires ClassOk(c, cs) && cs.occupied < Capacity(c) && leaf !in cs.positions
    ensures ClassOk(c, WithLeaf(cs, leaf))
  {
  }

  lemma StagedHead(adm: Admissions, k: Bytes32)
    requires |adm| > 0
    ensures StagedIn(adm, k) == (if adm[0].0 == k then 1 else 0) + StagedIn(adm[1..], k)
  {
  }

  /** The classes after one staged admission lands. */
  function Placed(classes: map<Bytes32, ClassState>, admission: (Bytes32, Bytes32)): map<Bytes32, ClassState>
    requires admission.0 in classes
  {
    classes[admission.0 := WithLeaf(classes[admission.0], admission.1)]
  }

  lemma LandOnePlaces(c: Scheme, l: Landing, adm: Admissions, next: nat)
    requires Primitives(c) && |adm| > 0 && ClassesOk(c, l.classes) && StagedOk(c, l.classes, adm)
    ensures adm[0].0 in l.classes && LandOne(c, l, adm[0], next).ok == l.ok
    ensures LandOne(c, l, adm[0], next).classes == Placed(l.classes, adm[0])
  {
    StagedHead(adm, adm[0].0);
    ClassIn(c, l.classes, adm[0].0);
    LandValue(c, l.classes[adm[0].0], adm[0].1);
  }

  lemma PlacedKeepsLayout(c: Scheme, classes: map<Bytes32, ClassState>, adm: Admissions)
    requires |adm| > 0 && ClassesOk(c, classes) && StagedOk(c, classes, adm)
    ensures ClassesOk(c, Placed(classes, adm[0]))
  {
    var k := adm[0].0;
    StagedHead(adm, k);
    ClassIn(c, classes, k);
    LandKeeps(c, classes[k], adm[0].1);
    SwapClass(c, classes, k, WithLeaf(classes[k], adm[0].1));
  }

  /** Replacing a class by a laid-out one keeps the layout. */
  lemma SwapClass(c: Scheme, classes: map<Bytes32, ClassState>, k: Bytes32, cs: ClassState)
    requires ClassesOk(c, classes) && ClassOk(c, cs)
    ensures ClassesOk(c, classes[k := cs])
  {
    forall j | j in classes && j != k ensures ClassOk(c, classes[j]) {
      ClassIn(c, classes, j);
    }
  }

  lemma PlacedKeepsStaging(c: Scheme, classes: map<Bytes32, ClassState>, adm: Admissions)
    requires |adm| > 0 && StagedOk(c, classes, adm)
    ensures StagedOk(c, Placed(classes, adm[0]), adm[1..])
  {
    var after := Placed(classes, adm[0]);
    forall j | j in after ensures after[j].occupied + StagedIn(adm[1..], j) <= Capacity(c) {
      StagedHead(adm, j);
    }
    forall i | 0 <= i < |adm| - 1
      ensures adm[1..][i].0 in after && adm[1..][i].1 !in after[adm[1..][i].0].positions
    {
      assert adm[1..][i] == adm[i + 1] && adm[0] != adm[i + 1];
    }
  }

  /** Nothing staged can fail to land, and landing keeps the layout. */
  lemma {:induction false} LandAllOk(c: Scheme, l: Landing, adm: Admissions, next: nat)
    requires Primitives(c) && l.ok && ClassesOk(c, l.classes) && StagedOk(c, l.classes, adm)
    ensures LandAll(c, l, adm, next).ok
    ensures ClassesOk(c, LandAll(c, l, adm, next).classes)
    ensures LandAll(c, l, adm, next).classes.Keys == l.classes.Keys
    decreases |adm|
  {
    if |adm| > 0 {
      LandOnePlaces(c, l, adm, next);
      PlacedKeepsLayout(c, l.classes, adm);
      PlacedKeepsStaging(c, l.classes, adm);
      LandAllOk(c, LandOne(c, l, adm[0], next), adm[1..], next);
    }
  }

  /** What landing does to a class: exactly its own staged leaves, padded, in staging order. */
  ghost predicate GrewBy(before: ClassState, after: ClassState, staged: seq<Bytes32>) {
    && after.leaves == before.leaves + Padded(staged)
    && after.occupied == before.occupied + |staged|
    && after.policy == before.policy
    && after.version == before.version
  }

  lemma {:induction false} LandAllGrows(c: Scheme, l: Landing, adm: Admissions, next: nat, k: Bytes32)
    requires Primitives(c) && l.ok && ClassesOk(c, l.classes) && StagedOk(c, l.classes, adm)
    requires k in l.classes
    ensures k in LandAll(c, l, adm, next).classes
    ensures GrewBy(l.classes[k], LandAll(c, l, adm, next).classes[k], StagedFor(adm, k))
    decreases |adm|
  {
    if |adm| > 0 {
      LandOnePlaces(c, l, adm, next);
      PlacedKeepsLayout(c, l.classes, adm);
      PlacedKeepsStaging(c, l.classes, adm);
      LandAllGrows(c, LandOne(c, l, adm[0], next), adm[1..], next, k);
      PaddedSplit(adm, k, l.classes[k].leaves);
    }
  }

  lemma PaddedSplit(adm: Admissions, k: Bytes32, leaves: seq<Bytes32>)
    requires |adm| > 0
    ensures leaves + Padded(StagedFor(adm, k))
         == (if adm[0].0 == k then leaves + [adm[0].1, PAD] else leaves) + Padded(StagedFor(adm[1..], k))
  {
    if adm[0].0 == k {
      assert StagedFor(adm, k)[1..] == StagedFor(adm[1..], k);
    } else {
      assert StagedFor(adm, k) == StagedFor(adm[1..], k);
    }
  }

  /** The i-th staged admission is the one its class lands after those staged before it. */
  lemma {:induction false} StagedAt(adm: Admissions, i: nat)
    requires i < |adm|
    ensures StagedIn(adm[..i], adm[i].0) < StagedIn(adm, adm[i].0)
    ensures StagedFor(adm, adm[i].0)[StagedIn(adm[..i], adm[i].0)] == adm[i].1
  {
    if i > 0 {
      StagedAt(adm[1..], i - 1);
      assert adm[..i][1..] == adm[1..][..i - 1];
    }
  }

  lemma {:induction false} StagedAppend(adm: Admissions, more: (Bytes32, Bytes32), k: Bytes32)
    ensures StagedFor(adm + [more], k) == StagedFor(adm, k) + (if more.0 == k then [more.1] else [])
  {
    if |adm| > 0 {
      StagedAppend(adm[1..], more, k);
      assert (adm + [more])[1..] == adm[1..] + [more];
    } else {
      assert adm + [more] == [more] && [more][1..] == [];
    }
  }

  // ---- Each transition keeps each invariant ----

  lemma StagingGrows(c: Scheme, classes: map<Bytes32, ClassState>, adm: Admissions, k: Bytes32, leaf: Bytes32)
    requires StagedOk(c, classes, adm) && k in classes && leaf !in classes[k].positions && (k, leaf) !in adm
    requires classes[k].occupied + StagedIn(adm, k) < Capacity(c)
    ensures StagedOk(c, classes, adm + [(k, leaf)])
  {
    forall j | j in classes ensures classes[j].occupied + StagedIn(adm + [(k, leaf)], j) <= Capacity(c) {
      StagedAppend(adm, (k, leaf), j);
    }
  }

  /** Capacity never underflows. */
  lemma RemainingIsNatural(c: Scheme, s: State, k: Bytes32)
    requires Core(c, s)
    ensures Remaining(c, s, k) >= 0
  {
    CoreLayout(c, s);
  }

  /** Staging an admission touches nothing else, and what it stages can land. */
  lemma StageKeeps(c: Scheme, s: State, k: Bytes32, leaf: Bytes32)
    requires StagedOk(c, s.classes, s.staged.admissions)
    ensures var s' := StageAdmission(c, s, k, leaf).0;
            && StagedOk(c, s.classes, s'.staged.admissions)
            && s' == s.(staged := s.staged.(admissions := s'.staged.admissions))
  {
    if StageAdmission(c, s, k, leaf).0 != s {
      StagingGrows(c, s.classes, s.staged.admissions, k, leaf);
    }
  }

  lemma SpendKeysInDomain(spends: seq<Bytes32>)
    ensures InDomain(SpendKeys(spends))
  {
    forall i | 0 <= i < |spends| ensures OrderOf(spends[i]) < SPAN253 {
      TruncationIsReduction(spends[i]);
    }
  }

  lemma RevocationKeysInDomain(c: Scheme, leaves: seq<Bytes32>)
    ensures InDomain(RevocationKeys(c, leaves))
  {
    forall i | 0 <= i < |leaves| ensures OrderOf(RevocationKey(c, leaves[i])) < SPAN253 {
      TruncationIsReduction(RevocationKey(c, leaves[i]));
    }
  }

  predicate CanCross(s: State) {
    !s.dissolved && s.epoch + 1 < U64
  }

  lemma AllLands(c: Scheme, s: State)
    requires Primitives(c) && Core(c, s)
    ensures LandedAll(c, s).ok && ClassesOk(c, LandedAll(c, s).classes)
    ensures LandedAll(c, s).classes.Keys == s.classes.Keys
  {
    hide Core, ClassesOk, StagedOk;
    CoreLayout(c, s);
    LandAllOk(c, Landing(s.classes, s.inboxes, s.stagedInboxes, true), s.staged.admissions, s.epoch + 1);
  }

  lemma LandedGrows(c: Scheme, s: State, k: Bytes32)
    requires Primitives(c) && Core(c, s) && k in s.classes
    ensures k in LandedAll(c, s).classes
    ensures GrewBy(s.classes[k], LandedAll(c, s).classes[k], StagedFor(s.staged.admissions, k))
  {
    hide Core, ClassesOk, StagedOk, GrewBy, LandAll, StagedFor;
    CoreLayout(c, s);
    LandAllGrows(c, Landing(s.classes, s.inboxes, s.stagedInboxes, true), s.staged.admissions, s.epoch + 1, k);
  }

  /** A live boundary below the last epoch always succeeds; one at the last epoch is refused
      and drops what was staged. */
  lemma AdvanceValue(c: Scheme, s: State)
    requires Primitives(c) && Core(c, s)
    ensures AdvanceEpoch(c, s) ==
            if CanCross(s) then (Boundary(c, s), Ok(Advanced))
            else if s.dissolved then (s, Err(Rejected))
            else (s.(staged := NOTHING_STAGED), Err(Unavailable))
  {
    AllLands(c, s);
  }

  lemma EmptyStaging(c: Scheme, classes: map<Bytes32, ClassState>)
    requires ClassesOk(c, classes)
    ensures StagedOk(c, classes, [])
  {
    forall k | k in classes ensures classes[k].occupied + StagedIn([], k) <= Capacity(c) {
      ClassIn(c, classes, k);
    }
  }

  ghost predicate SamePolicies(before: map<Bytes32, ClassState>, after: map<Bytes32, ClassState>) {
    && after.Keys == before.Keys
    && forall k :: k in before ==> after[k].policy == before[k].policy
  }

  /** Landing changes no policy. */
  lemma {:induction false} LandAllPolicies(c: Scheme, l: Landing, adm: Admissions, next: nat)
    ensures SamePolicies(l.classes, LandAll(c, l, adm, next).classes)
    decreases |adm|
  {
    if |adm| > 0 && l.ok {
      var r := LandOne(c, l, adm[0], next);
      assert SamePolicies(l.classes, r.classes);
      LandAllPolicies(c, r, adm[1..], next);
    }
  }

  /** The fields a boundary sets, apart from the history and log it records. */
  ghost predicate CrossedInto(c: Scheme, s: State, s': State) {
    && s'.classes == LandedAll(c, s).classes
    && s'.staged == NOTHING_STAGED
    && s'.spends == s.spends + SpendKeys(s.staged.spends)
    && s'.revocations == s.revocations + RevocationKeys(c, s.staged.revocations)
    && s'.revokedLeaves == s.revokedLeaves + Members(s.staged.revocations)
    && s'.epoch == s.epoch + 1
    && s'.sessions == map[] && s'.proposals == map[] && s'.challenges == {}
    && s'.quorum == s.quorum && s'.horizon == s.horizon && s'.dissolved == s.dissolved
    && s'.inboxes == LandedAll(c, s).inboxes && s'.stagedInboxes == LandedAll(c, s).stagedInboxes
    && s'.agora == s.agora && s'.pending == s.pending && s'.tagSecret == s.tagSecret
    && s'.statementSeed == s.statementSeed
  }

  lemma BoundaryFields(c: Scheme, s: State)
    ensures CrossedInto(c, s, Boundary(c, s))
  {
  }

  lemma TurnedSets(c: Scheme, s: State)
    requires InDomain(s.revocations) && InDomain(s.spends)
    ensures InDomain(s.spends + SpendKeys(s.staged.spends))
    ensures InDomain(s.revocations + RevocationKeys(c, s.staged.revocations))
  {
    SpendKeysInDomain(s.staged.spends);
    RevocationKeysInDomain(c, s.staged.revocations);
  }

  lemma LandedPolicies(c: Scheme, s: State)
    requires PoliciesOk(s.classes)
    ensures PoliciesOk(LandedAll(c, s).classes)
  {
    LandAllPolicies(c, Landing(s.classes, s.inboxes, s.stagedInboxes, true), s.staged.admissions, s.epoch + 1);
  }

  /** A live state whose parts keep each invariant is in the core. */
  lemma CoreOf(c: Scheme, s: State)
    requires ClassesOk(c, s.classes) && StagedOk(c, s.classes, s.staged.admissions)
    requires InDomain(s.revocations) && InDomain(s.spends)
    requires PoliciesOk(s.classes) && ProposalsOk(s.classes, s.proposals)
    requires s.quorum >= 1 && s.horizon >= MIN_INBOX_HORIZON && s.epoch < U64
    requires s.dissolved ==> NothingOpen(s)
    ensures Core(c, s)
  {
  }

  /** Landing and turning the epoch keep the core. */
  lemma BoundaryKeeps(c: Scheme, s: State, s': State)
    requires Primitives(c) && Core(c, s) && CanCross(s) && CrossedInto(c, s, s')
    ensures Core(c, s')
  {
    CoreSets(c, s);
    CoreGoverned(c, s);
    AllLands(c, s);
    EmptyStaging(c, s'.classes);
    TurnedSets(c, s);
    LandedPolicies(c, s);
    CoreOf(c, s');
  }

  lemma AdvanceKeeps(c: Scheme, s: State)
    requires Primitives(c) && Core(c, s)
    ensures Core(c, AdvanceEpoch(c, s).0)
  {
    AdvanceValue(c, s);
    if CanCross(s) {
      BoundaryFields(c, s);
      BoundaryKeeps(c, s, Boundary(c, s));
    } else if !s.dissolved {
      CoreLayout(c, s);
      EmptyStaging(c, s.classes);
      StagingKeeps(c, s, s.(staged := NOTHING_STAGED));
    }
  }

  /** A class under a new threshold and version, its leaves untouched. */
  lemma RethresholdKeeps(c: Scheme, classes: map<Bytes32, ClassState>, k: Bytes32, threshold: nat, version: nat)
    requires k in classes && ClassesOk(c, classes)
    ensures ClassesOk(c, classes[k := Rethresholded(classes[k], threshold, version)])
  {
    ClassIn(c, classes, k);
    SwapClass(c, classes, k, Rethresholded(classes[k], threshold, version));
  }

  function Rethresholded(cs: ClassState, threshold: nat, version: nat): ClassState {
    cs.(policy := cs.policy.(threshold := threshold), version := version)
  }

  lemma RethresholdKeepsStaging(c: Scheme, classes: map<Bytes32, ClassState>, adm: Admissions, k: Bytes32,
                                threshold: nat, version: nat)
    requires k in classes && StagedOk(c, classes, adm)
    ensures StagedOk(c, classes[k := Rethresholded(classes[k], threshold, version)], adm)
  {
  }

  lemma RethresholdKeepsPolicies(classes: map<Bytes32, ClassState>, proposals: map<Bytes32, Proposal>, k: Bytes32,
                                 threshold: nat, version: nat)
    requires k in classes && PoliciesOk(classes) && ProposalsOk(classes, proposals) && threshold >= 1
    ensures PoliciesOk(classes[k := Rethresholded(classes[k], threshold, version)])
    ensures ProposalsOk(classes[k := Rethresholded(classes[k], threshold, version)], proposals)
  {
    assert classes[k := Rethresholded(classes[k], threshold, version)].Keys == classes.Keys;
  }

  lemma ActivateKeeps(c: Scheme, s: State, d: Decision)
    requires Core(c, s) && !s.dissolved
    requires d.Policy? && d.class_ in s.classes && d.threshold >= 1 && d.quorum >= 1
    ensures Core(c, ActivatePolicy(c, s, d).0)
  {
    hide Core, Appended;
    var s' := ActivatePolicy(c, s, d).0;
    ReclassKeeps(c, s, d.class_, d.threshold, s.classes[d.class_].version + 1, d.quorum, s'.log);
  }

  /** A class under a new threshold, and a new quorum, keep the core. */
  lemma ReclassKeeps(c: Scheme, s: State, k: Bytes32, threshold: nat, version: nat, quorum: nat, log: Option<LogState>)
    requires Core(c, s) && !s.dissolved && k in s.classes && threshold >= 1 && quorum >= 1
    ensures Core(c, s.(classes := s.classes[k := Rethresholded(s.classes[k], threshold, version)],
                       quorum := quorum, log := log))
  {
    CoreLayout(c, s);
    CoreSets(c, s);
    CoreGoverned(c, s);
    RethresholdKeeps(c, s.classes, k, threshold, version);
    RethresholdKeepsStaging(c, s.classes, s.staged.admissions, k, threshold, version);
    RethresholdKeepsPolicies(s.classes, s.proposals, k, threshold, version);
  }

  lemma DissolveKeeps(c: Scheme, s: State)
    requires Core(c, s)
    ensures Core(c, Dissolve(c, s))
  {
    CoreLayout(c, s);
    CoreSets(c, s);
    CoreGoverned(c, s);
    EmptyStaging(c, s.classes);
    CoreOf(c, Dissolve(c, s));
  }

  predicate Executes(s: State, subject: Bytes32) {
    !s.dissolved && subject in s.proposals && |s.proposals[subject].approvals| >= s.quorum
  }

  /** The state with an executed proposal consumed, and its revocation staged if it is one. */
  function Consumed(s: State, subject: Bytes32): State
    requires subject in s.proposals
  {
    var d := s.proposals[subject].decision;
    s.(proposals := s.proposals - {subject},
       staged := s.staged.(revocations := s.staged.revocations + (if d.Revocation? then [d.leaf] else [])))
  }

  lemma ConsumedKeeps(c: Scheme, s: State, subject: Bytes32)
    requires Core(c, s) && Executes(s, subject)
    ensures Core(c, Consumed(s, subject))
  {
    CoreGoverned(c, s);
    CoreLayout(c, s);
    var fewer := s.(proposals := s.proposals - {subject});
    ProposalsKeep(c, s, fewer);
    StagingKeeps(c, fewer, Consumed(s, subject));
  }

  /** What an executed decision does to the state its proposal was consumed in. */
  function Effect(c: Scheme, s: State, d: Decision): State {
    match d
    case Policy(_, _, _) => ActivatePolicy(c, s, d).0
    case Revocation(_) => AdvanceEpoch(c, s).0
    case Dissolution => Dissolve(c, s)
    case InboxHorizon(boundaries) => s.(horizon := boundaries)
  }

  lemma ExecuteValue(c: Scheme, s: State, subject: Bytes32)
    requires Executes(s, subject)
    ensures Execute(c, s, subject).0 == Effect(c, Consumed(s, subject), s.proposals[subject].decision)
  {
    assert s.staged.revocations + [] == s.staged.revocations;
  }

  lemma HorizonKeeps(c: Scheme, s: State, boundaries: nat)
    requires Core(c, s) && !s.dissolved && boundaries >= MIN_INBOX_HORIZON
    ensures Core(c, s.(horizon := boundaries))
  {
    CoreLayout(c, s);
    CoreSets(c, s);
    CoreGoverned(c, s);
    CoreOf(c, s.(horizon := boundaries));
  }

  lemma EffectKeeps(c: Scheme, s: State, d: Decision)
    requires Primitives(c) && Core(c, s) && !s.dissolved && DecisionOk(s.classes, d)
    ensures Core(c, Effect(c, s, d))
  {
    match d {
      case Policy(_, _, _) => ActivateKeeps(c, s, d);
      case Revocation(_) => AdvanceKeeps(c, s);
      case Dissolution => DissolveKeeps(c, s);
      case InboxHorizon(boundaries) => HorizonKeeps(c, s, boundaries);
    }
  }

  lemma ExecuteKeeps(c: Scheme, s: State, subject: Bytes32)
    requires Primitives(c) && Core(c, s)
    ensures Core(c, Execute(c, s, subject).0)
  {
    if Executes(s, subject) {
      CoreGoverned(c, s);
      ConsumedKeeps(c, s, subject);
      ExecuteValue(c, s, subject);
      assert ProposalOk(s.classes, s.proposals[subject]);
      EffectKeeps(c, Consumed(s, subject), s.proposals[subject].decision);
    }
  }

  /** Staging touches what is staged alone. */
  lemma StagingOnly(c: Scheme, s: State, k: Bytes32, leaf: Bytes32)
    ensures StageAdmission(c, s, k, leaf).0 == s.(staged := StageAdmission(c, s, k, leaf).0.staged)
  {
    hide Remaining, StagedIn, PositionOf;
    var more := s.(staged := s.staged.(admissions := s.staged.admissions + [(k, leaf)]));
    assert StageAdmission(c, s, k, leaf).0 == s || StageAdmission(c, s, k, leaf).0 == more;
  }

  /** Migrating touches what is staged and the staged inboxes alone. */
  lemma MigrateOnly(c: Scheme, s: State, k: Bytes32, proof: StubProof<MigrationWitness>,
                    spend: Bytes32, successor: Bytes32, inbox: Bytes32)
    ensures var s' := Migrate(c, s, k, proof, spend, successor, inbox).0;
            s' == s.(staged := s'.staged, stagedInboxes := s'.stagedInboxes)
  {
    hide VerifyMigration, RootsIn, StageAdmission, OrderOf;
    StagingOnly(c, s, k, successor);
  }

  /** Finalizing touches the sessions, the pending and what is staged alone. */
  lemma FinalizeOnly(c: Scheme, s: State, id: Bytes32)
    ensures var s' := VouchFinalize(c, s, id).0;
            s' == s.(sessions := s'.sessions, pending := s'.pending, staged := s'.staged)
  {
    hide StageAdmission;
    if id in s.sessions {
      var session := s.sessions[id];
      StagingOnly(c, s.(sessions := s.sessions - {id}, pending := s.pending - {session.candidate}), session.target, session.candidate);
    }
  }

  lemma MigrateKeeps(c: Scheme, s: State, k: Bytes32, proof: StubProof<MigrationWitness>,
                     spend: Bytes32, successor: Bytes32, inbox: Bytes32)
    requires Core(c, s)
    ensures Core(c, Migrate(c, s, k, proof, spend, successor, inbox).0)
  {
    hide Core, Migrate, StagedOk, StageAdmission;
    CoreLayout(c, s);
    StageKeeps(c, s, k, successor);
    MigrateOnly(c, s, k, proof, spend, successor, inbox);
    MigrateStages(c, s, k, proof, spend, successor, inbox);
    var s' := Migrate(c, s, k, proof, spend, successor, inbox).0;
    if s' != s {
      StagingKeeps(c, s, s');
    }
  }

  /** Migrating stages what staging stages, or changes nothing. */
  lemma MigrateStages(c: Scheme, s: State, k: Bytes32, proof: StubProof<MigrationWitness>,
                      spend: Bytes32, successor: Bytes32, inbox: Bytes32)
    ensures var s' := Migrate(c, s, k, proof, spend, successor, inbox).0;
            s' == s || (!s'.dissolved && s'.staged.admissions == StageAdmission(c, s, k, successor).0.staged.admissions)
  {
    hide VerifyMigration, RootsIn, StageAdmission, OrderOf;
    StagingOnly(c, s, k, successor);
  }

  lemma FinalizeKeeps(c: Scheme, s: State, id: Bytes32)
    requires Core(c, s)
    ensures Core(c, VouchFinalize(c, s, id).0)
  {
    if !s.dissolved && id in s.sessions {
      CoreLayout(c, s);
      var session := s.sessions[id];
      var closed := s.(sessions := s.sessions - {id});
      StageKeeps(c, closed.(pending := closed.pending - {session.candidate}), session.target, session.candidate);
      StagingKeeps(c, s, VouchFinalize(c, s, id).0);
    }
  }

  lemma ProposeKeeps(c: Scheme, s: State, d: Decision, approving: Bytes32, nonce: Bytes32)
    requires Core(c, s)
    ensures Core(c, Propose(c, s, d, approving, nonce).0)
  {
    hide Core, SubjectId;
    if Propose(c, s, d, approving, nonce).1.Ok? {
      var subject := SubjectId(c, s.agora, s.epoch, approving, d, nonce);
      FilingKeeps(c, s, subject, Proposal(d, approving, s.epoch, nonce, {}));
    }
  }

  /** Filing a proposal that could validly execute keeps the core. */
  lemma FilingKeeps(c: Scheme, s: State, subject: Bytes32, p: Proposal)
    requires Core(c, s) && !s.dissolved && ProposalOk(s.classes, p)
    ensures Core(c, s.(proposals := s.proposals[subject := p]))
  {
    hide Core;
    CoreGoverned(c, s);
    ProposalsKeep(c, s, s.(proposals := s.proposals[subject := p]));
  }

  lemma ApproveKeeps(c: Scheme, s: State, subject: Bytes32, proof: StubProof<ChainWitness>, nullifier: Bytes32)
    requires Core(c, s)
    ensures Core(c, Approve(c, s, subject, proof, nullifier).0)
  {
    hide Core, VerifyChain, RootsIn;
    var s' := Approve(c, s, subject, proof, nullifier).0;
    if s' != s {
      CoreGoverned(c, s);
      assert ProposalOk(s.classes, s.proposals[subject]);
      ProposalsKeep(c, s, s');
    }
  }

  lemma AttestKeeps(c: Scheme, s: State, id: Bytes32, proof: StubProof<ChainWitness>, nullifier: Bytes32)
    requires Core(c, s)
    ensures Core(c, VouchAttest(c, s, id, proof, nullifier).0)
  {
    if VouchAttest(c, s, id, proof, nullifier).0 != s {
      FrameKeeps(c, s, VouchAttest(c, s, id, proof, nullifier).0);
    }
  }

  lemma RedeemKeeps(c: Scheme, s: State, k: Bytes32, proof: StubProof<ChainWitness>, challenge: Bytes32)
    requires Core(c, s)
    ensures Core(c, RedeemAccess(c, s, k, proof, challenge).0)
  {
    RedeemBurns(c, s, k, proof, challenge);
    if !s.dissolved {
      FrameKeeps(c, s, s.(challenges := s.challenges - {challenge}));
    }
  }

  /** Redeeming a challenge changes nothing but the challenge. */
  lemma RedeemBurns(c: Scheme, s: State, k: Bytes32, proof: StubProof<ChainWitness>, challenge: Bytes32)
    ensures RedeemAccess(c, s, k, proof, challenge).0
         == if s.dissolved then s else s.(challenges := s.challenges - {challenge})
  {
    if challenge !in s.challenges {
      assert s.challenges - {challenge} == s.challenges;
    }
  }

  lemma CertificateKeeps(c: Scheme, s: State, leaf: Bytes32, inbox: Bytes32, action: InboxAction,
                         proof: StubProof<InboxWitness>)
    requires Core(c, s)
    ensures Core(c, InboxCertificate(c, s, leaf, inbox, action, proof).0)
  {
    if InboxCertificate(c, s, leaf, inbox, action, proof).0 != s {
      FrameKeeps(c, s, InboxCertificate(c, s, leaf, inbox, action, proof).0);
    }
  }

  lemma IntakeKeeps(c: Scheme, s: State, a: Bytes32, b: Bytes32, id: Bytes32)
    requires Core(c, s)
    ensures Core(c, CredentialsInit(s, a, b).0)
    ensures Core(c, StartVouch(c, s, a, b, id).0)
    ensures Core(c, IssueChallenge(s, a).0)
  {
    if !s.dissolved {
      FrameKeeps(c, s, CredentialsInit(s, a, b).0);
      FrameKeeps(c, s, StartVouch(c, s, a, b, id).0);
      FrameKeeps(c, s, IssueChallenge(s, a).0);
    }
  }

  /** Every step whatever, with any arguments, keeps the core. */
  lemma StepKeepsCore(c: Scheme, s: State, step: Step)
    requires Primitives(c) && Core(c, s)
    ensures Core(c, Apply(c, s, step).0)
  {
    match step {
      case Init(commitment, inbox) => IntakeKeeps(c, s, commitment, inbox, ZERO32);
      case Start(candidate, target, id) => IntakeKeeps(c, s, candidate, target, id);
      case Attest(id, proof, nullifier) => AttestKeeps(c, s, id, proof, nullifier);
      case Finalize(id) => FinalizeKeeps(c, s, id);
      case Migrating(k, proof, spend, successor, inbox) => MigrateKeeps(c, s, k, proof, spend, successor, inbox);
      case Proposing(d, approving, nonce) => ProposeKeeps(c, s, d, approving, nonce);
      case Approving(subject, proof, nullifier) => ApproveKeeps(c, s, subject, proof, nullifier);
      case Executing(subject) => ExecuteKeeps(c, s, subject);
      case Certifying(leaf, inbox, action, proof) => CertificateKeeps(c, s, leaf, inbox, action, proof);
      case Advancing => AdvanceKeeps(c, s);
      case Challenging(entropy) => IntakeKeeps(c, s, entropy, entropy, entropy);
      case Redeeming(k, proof, challenge) => RedeemKeeps(c, s, k, proof, challenge);
    }
  }

  /** After dissolution every mutating call is refused and changes nothing. */
  lemma FrozenForever(c: Scheme, s: State, step: Step)
    requires s.dissolved
    ensures Apply(c, s, step) == (s, Err(Rejected))
  {
  }

  // ---- Creation ----

  ghost predicate DistinctIds(ids: seq<Bytes32>) {
    forall i, j :: 0 <= i < j < |ids| ==> ids[i] != ids[j]
  }

  /** A class as founded: empty, at its first version, under one of the listed policies. */
  ghost predicate Founded(cs: ClassState, k: Bytes32, classes: seq<(Bytes32, ClassPolicy)>) {
    cs == ClassState([], cs.policy, 1, 0, map[]) && (k, cs.policy) in classes
  }

  lemma {:induction false} FoundedClasses(classes: seq<(Bytes32, ClassPolicy)>)
    ensures forall k :: k in FoundClasses(classes) ==> Founded(FoundClasses(classes)[k], k, classes)
  {
    if |classes| > 0 {
      var before, last := classes[..|classes| - 1], classes[|classes| - 1];
      FoundedClasses(before);
      forall k | k in FoundClasses(classes)
        ensures Founded(FoundClasses(classes)[k], k, classes)
      {
        if k != last.0 {
          assert Founded(FoundClasses(before)[k], k, before);
        }
      }
    }
  }

  /** A class holding the founder alone. */
  function WithFounder(cs: ClassState, founder: Bytes32): ClassState {
    cs.(leaves := [founder, PAD], occupied := 1, positions := map[founder := 0])
  }

  /** The class after the founder may have landed in it. */
  function MaybeFounder(cs: ClassState, founder: Bytes32, lands: bool): ClassState {
    if lands then WithFounder(cs, founder) else cs
  }

  /** The founder lands at position 0 of each listed class and nowhere else. */
  lemma {:induction false} FounderLands(c: Scheme, classes: map<Bytes32, ClassState>, founder: Bytes32, into: seq<Bytes32>)
    requires Primitives(c) && DistinctIds(into)
    requires forall k :: k in classes && k in into ==>
               classes[k].leaves == [] && classes[k].occupied == 0 && classes[k].positions == map[]
    requires LandFounder(c, classes, founder, into).Some?
    ensures var r := LandFounder(c, classes, founder, into).value;
            && r.Keys == classes.Keys
            && forall k :: k in classes ==> r[k] == MaybeFounder(classes[k], founder, k in into)
    decreases |into|
  {
    hide Pow2, Capacity, Land;
    if |into| > 0 {
      var cs := classes[into[0]];
      CapacityIsHalf(c);
      LandValue(c, cs, founder);
      assert WithLeaf(cs, founder) == WithFounder(cs, founder) by {
        assert [] + [founder, PAD] == [founder, PAD];
      }
      FounderLands(c, classes[into[0] := WithFounder(cs, founder)], founder, into[1..]);
    }
  }

  lemma FoundedLayout(c: Scheme, cs: ClassState, k: Bytes32, classes: seq<(Bytes32, ClassPolicy)>, founder: Bytes32,
                      lands: bool)
    requires Primitives(c) && Founded(cs, k, classes)
    ensures ClassOk(c, MaybeFounder(cs, founder, lands))
  {
  }

  /** The classes a founding lands: each empty or holding the founder alone. */
  lemma FoundingClassesOk(c: Scheme, f: Founding, landed: map<Bytes32, ClassState>)
    requires Primitives(c) && DistinctIds(f.founderClasses)
    requires LandFounder(c, FoundClasses(f.classes), f.founder, f.founderClasses) == Some(landed)
    ensures ClassesOk(c, landed)
  {
    var classes := FoundClasses(f.classes);
    FoundedClasses(f.classes);
    FounderLands(c, classes, f.founder, f.founderClasses);
    forall k | k in landed ensures k !in Misplaced(c, landed) {
      FoundedLayout(c, classes[k], k, f.classes, f.founder, k in f.founderClasses);
    }
  }

  lemma FoundingPolicies(c: Scheme, f: Founding, landed: map<Bytes32, ClassState>)
    requires Primitives(c) && DistinctIds(f.founderClasses)
    requires PolicyConsistent(FoundClasses(f.classes), f.classes)
    requires LandFounder(c, FoundClasses(f.classes), f.founder, f.founderClasses) == Some(landed)
    ensures PoliciesOk(landed)
  {
    hide FoundClasses, LandFounder;
    var classes := FoundClasses(f.classes);
    FoundedClasses(f.classes);
    FounderLands(c, classes, f.founder, f.founderClasses);
    forall k | k in landed ensures PolicyOk(landed, landed[k].policy) {
      assert Founded(classes[k], k, f.classes);
    }
  }

  /** A consistent founding starts in the core. */
  lemma CreatedOk(c: Scheme, f: Founding, tagSecret: Bytes32, statement: Bytes32, logSeed: Option<Bytes32>)
    requires Primitives(c) && f.genesis < U64 && DistinctIds(f.founderClasses)
    requires Created(c, f, tagSecret, statement, logSeed).Ok?
    ensures Core(c, Created(c, f, tagSecret, statement, logSeed).value)
  {
    var s := Created(c, f, tagSecret, statement, logSeed).value;
    FoundingClassesOk(c, f, s.classes);
    FoundingPolicies(c, f, s.classes);
    EmptyStaging(c, s.classes);
    CoreOf(c, s);
  }
}
