/** The three proof statements, evaluated clause by clause, and the stub backend whose proof is
    its witness. */
module Statements {
  import opened Wrappers
  import opened Bytes
  import opened Crypto
  import opened BatchTree
  import opened Exclusion

  datatype Action =
    | Authorship(messageHash: Bytes32, nullifier: Bytes32)
    | Vouch(sessionId: seq<byte>, nullifier: Bytes32)
    | PolicyApproval(proposalId: seq<byte>, nullifier: Bytes32)
    | LiveAuth(context: Bytes32, pseudonym: Bytes32)
    | VerificationAccess(challenge: seq<byte>)

  datatype ChainPublic = ChainPublic(
    agora: Bytes32, epoch: nat, classRoot: Bytes32, revocationRoot: Bytes32, spendRoot: Bytes32, action: Action)

  datatype ChainWitness = ChainWitness(
    epochKey: Bytes32, epochPublicKey: seq<byte>, epochCert: seq<byte>,
    credentialKey: Bytes32, rootOpening: Bytes32, rootPublicKey: seq<byte>,
    leafWitness: Witness, revocationAbsence: AbsenceWitness, spendAbsence: AbsenceWitness)

  datatype MigrationPublic = MigrationPublic(
    agora: Bytes32, classRoot: Bytes32, revocationRoot: Bytes32, spend: Bytes32, successor: Bytes32)

  datatype MigrationWitness = MigrationWitness(
    oldRootPublicKey: seq<byte>, oldRootOpening: Bytes32, credentialKey: Bytes32, oldLeafWitness: Witness,
    migrationCert: seq<byte>, successorPublicKey: seq<byte>, successorOpening: Bytes32,
    revocationAbsence: AbsenceWitness)

  datatype InboxAction = Retire | Renew
  {
    function Tag(): F {
      if Retire? then 0 else 1
    }
  }

  datatype InboxPublic = InboxPublic(agora: Bytes32, leaf: Bytes32, inbox: Bytes32, action: InboxAction)

  datatype InboxWitness = InboxWitness(
    rootPublicKey: seq<byte>, rootOpening: Bytes32, credentialKey: Bytes32, inboxCert: seq<byte>)

  // ---- Type guarantees of witnesses ----

  predicate ChainType(c: Scheme, w: ChainWitness) {
    WitnessType(c, w.leafWitness) && AbsenceType(c, w.revocationAbsence) && AbsenceType(c, w.spendAbsence)
  }

  predicate MigrationType(c: Scheme, w: MigrationWitness) {
    WitnessType(c, w.oldLeafWitness) && AbsenceType(c, w.revocationAbsence)
  }

  // ---- The statements ----

  predicate EpochKeyCertified(c: Scheme, w: ChainWitness, agora: Bytes32, epoch: nat) {
    && PublicKey(c, w.epochKey) == Some(w.epochPublicKey)
    && EpochCertMessage(c, agora, epoch, w.epochPublicKey).Some?
    && VerifySignature(c, w.rootPublicKey, EpochCertMessage(c, agora, epoch, w.epochPublicKey).value, w.epochCert)
  }

  /** The one clause that varies: the action's claimed output is correctly derived. */
  predicate ActionDerived(c: Scheme, w: ChainWitness, agora: Bytes32, action: Action) {
    match action
    case Authorship(hash, claimed) => claimed == ActionNullifier(c, AUTHORSHIP, w.epochKey, FromId(hash), agora)
    case Vouch(session, claimed) =>
      claimed == ActionNullifier(c, VOUCH, w.credentialKey, FromContextBytes(c, session), agora)
    case PolicyApproval(proposal, claimed) =>
      claimed == ActionNullifier(c, POLICY, w.credentialKey, FromContextBytes(c, proposal), agora)
    case LiveAuth(context, claimed) => claimed == ActionNullifier(c, LIVE_AUTH, w.epochKey, FromId(context), agora)
    case VerificationAccess(_) => true
  }

  /** The leaf a chain witness opens. */
  function OpenedLeaf(c: Scheme, w: ChainWitness, agora: Bytes32): Option<Bytes32> {
    Commit(c, w.rootPublicKey, w.credentialKey, w.rootOpening, agora)
  }

  predicate ChainHolds(c: Scheme, w: ChainWitness, p: ChainPublic) {
    && EpochKeyCertified(c, w, p.agora, p.epoch)
    && OpenedLeaf(c, w, p.agora).Some?
    && var leaf := OpenedLeaf(c, w, p.agora).value;
    && Verifies(c, leaf, w.leafWitness, p.classRoot)
    && VerifiesAbsent(c, RevocationKey(c, leaf), w.revocationAbsence, p.revocationRoot)
    && VerifiesAbsent(c, SpendNullifier(c, w.credentialKey, leaf, p.agora), w.spendAbsence, p.spendRoot)
    && ActionDerived(c, w, p.agora, p.action)
  }

  function OldLeaf(c: Scheme, w: MigrationWitness, agora: Bytes32): Option<Bytes32> {
    Commit(c, w.oldRootPublicKey, w.credentialKey, w.oldRootOpening, agora)
  }

  predicate SuccessorAuthorized(c: Scheme, w: MigrationWitness, agora: Bytes32) {
    && MigrationCertMessage(c, agora, w.successorPublicKey).Some?
    && VerifySignature(c, w.oldRootPublicKey, MigrationCertMessage(c, agora, w.successorPublicKey).value, w.migrationCert)
  }

  predicate MigrationHolds(c: Scheme, w: MigrationWitness, p: MigrationPublic) {
    && OldLeaf(c, w, p.agora).Some?
    && var leaf := OldLeaf(c, w, p.agora).value;
    && Verifies(c, leaf, w.oldLeafWitness, p.classRoot)
    && VerifiesAbsent(c, RevocationKey(c, leaf), w.revocationAbsence, p.revocationRoot)
    && p.spend == SpendNullifier(c, w.credentialKey, leaf, p.agora)
    && SuccessorAuthorized(c, w, p.agora)
    && Commit(c, w.successorPublicKey, w.credentialKey, w.successorOpening, p.agora) == Some(p.successor)
  }

  predicate InboxHolds(c: Scheme, w: InboxWitness, p: InboxPublic) {
    && Commit(c, w.rootPublicKey, w.credentialKey, w.rootOpening, p.agora) == Some(p.leaf)
    && VerifySignature(c, w.rootPublicKey, InboxCertMessage(c, p.agora, p.action.Tag(), p.inbox), w.inboxCert)
  }

  // ---- The stub backend ----

  function ActionParts(a: Action): seq<seq<byte>> {
    match a
    case Authorship(hash, nullifier) => [[0], hash, nullifier]
    case Vouch(session, nullifier) => [[1], session, nullifier]
    case PolicyApproval(proposal, nullifier) => [[2], proposal, nullifier]
    case LiveAuth(context, pseudonym) => [[3], context, pseudonym]
    case VerificationAccess(challenge) => [[4], challenge]
  }

  function ChainParts(p: ChainPublic): seq<seq<byte>> {
    [p.agora, U64Bytes(p.epoch), p.classRoot, p.revocationRoot, p.spendRoot] + ActionParts(p.action)
  }

  function ChainBinding(c: Scheme, p: ChainPublic): Bytes32 {
    Digest(c, StubChain, ChainParts(p))
  }

  function MigrationBinding(c: Scheme, p: MigrationPublic): Bytes32 {
    Digest(c, StubMigration, [p.agora, p.classRoot, p.revocationRoot, p.spend, p.successor])
  }

  function InboxBinding(c: Scheme, p: InboxPublic): Bytes32 {
    Digest(c, StubInbox, [p.agora, p.leaf, p.inbox, U64Bytes(p.action.Tag())])
  }

  datatype StubProof<W> = StubProof(binding: Bytes32, material: W)

  predicate VerifyChain(c: Scheme, proof: StubProof<ChainWitness>, p: ChainPublic) {
    ChainType(c, proof.material) && proof.binding == ChainBinding(c, p) && ChainHolds(c, proof.material, p)
  }

  predicate VerifyMigration(c: Scheme, proof: StubProof<MigrationWitness>, p: MigrationPublic) {
    MigrationType(c, proof.material) && proof.binding == MigrationBinding(c, p) && MigrationHolds(c, proof.material, p)
  }

  predicate VerifyInbox(c: Scheme, proof: StubProof<InboxWitness>, p: InboxPublic) {
    proof.binding == InboxBinding(c, p) && InboxHolds(c, proof.material, p)
  }

  /** A prover refuses a false statement, and refuses key and signature slices whose widths are
      not the scheme's. */
  function ProveMigration(c: Scheme, w: MigrationWitness, p: MigrationPublic): Result<StubProof<MigrationWitness>> {
    if !MigrationHolds(c, w, p) then Err(Malformed)
    else if |w.oldRootPublicKey| != 32 || |w.migrationCert| != 64 || |w.successorPublicKey| != 32 then Err(Malformed)
    else Ok(StubProof(MigrationBinding(c, p), w))
  }

  function ProveChain(c: Scheme, w: ChainWitness, p: ChainPublic): Result<StubProof<ChainWitness>> {
    if !ChainHolds(c, w, p) then Err(Malformed)
    else if |w.epochPublicKey| != 32 || |w.epochCert| != 64 || |w.rootPublicKey| != 32 then Err(Malformed)
    else Ok(StubProof(ChainBinding(c, p), w))
  }

  function ProveInbox(c: Scheme, w: InboxWitness, p: InboxPublic): Result<StubProof<InboxWitness>> {
    if !InboxHolds(c, w, p) then Err(Malformed)
    else if |w.rootPublicKey| != 32 || |w.inboxCert| != 64 then Err(Malformed)
    else Ok(StubProof(InboxBinding(c, p), w))
  }

  /** The stub proves exactly the true statements: the width checks never refuse a true one,
      and what it proves it verifies. */
  lemma StubIsHonest(c: Scheme, w: ChainWitness, p: ChainPublic)
    requires ChainType(c, w)
    ensures ProveChain(c, w, p).Ok? <==> ChainHolds(c, w, p)
    ensures ProveChain(c, w, p).Ok? ==> VerifyChain(c, ProveChain(c, w, p).value, p)
  {
  }

  lemma MigrationStubIsHonest(c: Scheme, w: MigrationWitness, p: MigrationPublic)
    requires MigrationType(c, w)
    ensures ProveMigration(c, w, p).Ok? <==> MigrationHolds(c, w, p)
    ensures ProveMigration(c, w, p).Ok? ==> VerifyMigration(c, ProveMigration(c, w, p).value, p)
  {
  }

  lemma InboxStubIsHonest(c: Scheme, w: InboxWitness, p: InboxPublic)
    ensures ProveInbox(c, w, p).Ok? <==> InboxHolds(c, w, p)
    ensures ProveInbox(c, w, p).Ok? ==> VerifyInbox(c, ProveInbox(c, w, p).value, p)
  {
  }

  // ---- What an accepted statement establishes ----

  /** The preimage of an opening, as the field sees it. */
  function OpeningPreimage(c: Scheme, pk: seq<byte>, key: Bytes32, opening: Bytes32, agora: Bytes32): seq<F>
    requires DecodePoint(c, pk).Some?
  {
    LeafPreimage(DecodePoint(c, pk).value, Value(key), Value(opening), FromId(agora))
  }

  lemma OpenedValue(c: Scheme, pk: seq<byte>, key: Bytes32, opening: Bytes32, agora: Bytes32)
    requires Primitives(c) && Commit(c, pk, key, opening, agora).Some?
    ensures Value(Commit(c, pk, key, opening, agora).value) == Poseidon(c, OpeningPreimage(c, pk, key, opening, agora))
  {
    HashInField(c, OpeningPreimage(c, pk, key, opening, agora));
    ValueOfToBytes(Poseidon(c, OpeningPreimage(c, pk, key, opening, agora)));
  }

  /** Two openings of one leaf value share their credential key, unless their preimages
      collide. */
  lemma OneLeafOneKey(c: Scheme, pk: seq<byte>, key: Bytes32, opening: Bytes32,
                      pk': seq<byte>, key': Bytes32, opening': Bytes32, agora: Bytes32, q: set<seq<F>>)
    requires Primitives(c) && CollisionFree(c, q)
    requires Commit(c, pk, key, opening, agora).Some? && Commit(c, pk', key', opening', agora).Some?
    requires OpeningPreimage(c, pk, key, opening, agora) in q && OpeningPreimage(c, pk', key', opening', agora) in q
    requires Value(Commit(c, pk, key, opening, agora).value) == Value(Commit(c, pk', key', opening', agora).value)
    ensures Value(key) == Value(key')
  {
    var a, b := OpeningPreimage(c, pk, key, opening, agora), OpeningPreimage(c, pk', key', opening', agora);
    OpenedValue(c, pk, key, opening, agora);
    OpenedValue(c, pk', key', opening', agora);
    Distinct(c, q, a, b);
    assert a[3] == b[3];
  }

  /** Everything hashed to accept a chain witness against these trees. */
  ghost function ChainQueries(c: Scheme, w: ChainWitness, agora: Bytes32,
                              leaves: seq<Bytes32>, revoked: set<nat>, spent: set<nat>): set<seq<F>>
  {
    match OpenedLeaf(c, w, agora)
    case None => {}
    case Some(leaf) =>
      {OpeningPreimage(c, w.rootPublicKey, w.credentialKey, w.rootOpening, agora)}
      + WitnessQueries(c, leaves, Value(leaf), w.leafWitness)
      + AbsenceQueries(c, revoked, w.revocationAbsence)
      + AbsenceQueries(c, spent, w.spendAbsence)
  }

  /** A chain statement accepted against the roots of these trees opens a landed leaf that is
      in neither exclusion set. */
  lemma ChainSound(c: Scheme, w: ChainWitness, p: ChainPublic,
                   leaves: seq<Bytes32>, revoked: set<nat>, spent: set<nat>, q: set<seq<F>>)
    requires Primitives(c) && ChainType(c, w) && ChainHolds(c, w, p)
    requires InDomain(revoked) && InDomain(spent)
    requires p.classRoot == TreeRoot(c, leaves)
    requires p.revocationRoot == SetRoot(c, revoked) && p.spendRoot == SetRoot(c, spent)
    requires ChainQueries(c, w, p.agora, leaves, revoked, spent) <= q && CollisionFree(c, q)
    ensures var leaf := OpenedLeaf(c, w, p.agora).value;
            && w.leafWitness.index < |leaves|
            && Value(leaves[w.leafWitness.index]) == Value(leaf) != 0
            && OrderOf(RevocationKey(c, leaf)) !in revoked
            && OrderOf(SpendNullifier(c, w.credentialKey, leaf, p.agora)) !in spent
  {
    var leaf := OpenedLeaf(c, w, p.agora).value;
    var opening := OpeningPreimage(c, w.rootPublicKey, w.credentialKey, w.rootOpening, p.agora);
    assert opening in q;
    NonEmpty(c, q, opening);
    OpenedValue(c, w.rootPublicKey, w.credentialKey, w.rootOpening, p.agora);
    VerifiedLeafIsPlaced(c, leaves, leaf, w.leafWitness, q);
    AbsenceSound(c, revoked, RevocationKey(c, leaf), w.revocationAbsence, q);
    AbsenceSound(c, spent, SpendNullifier(c, w.credentialKey, leaf, p.agora), w.spendAbsence, q);
  }

  ghost function MigrationQueries(c: Scheme, w: MigrationWitness, agora: Bytes32,
                                  leaves: seq<Bytes32>, revoked: set<nat>): set<seq<F>>
  {
    match OldLeaf(c, w, agora)
    case None => {}
    case Some(leaf) =>
      {OpeningPreimage(c, w.oldRootPublicKey, w.credentialKey, w.oldRootOpening, agora)}
      + WitnessQueries(c, leaves, Value(leaf), w.oldLeafWitness)
      + AbsenceQueries(c, revoked, w.revocationAbsence)
  }

  /** An accepted migration consumes a landed, unrevoked leaf. */
  lemma MigrationSound(c: Scheme, w: MigrationWitness, p: MigrationPublic,
                       leaves: seq<Bytes32>, revoked: set<nat>, q: set<seq<F>>)
    requires Primitives(c) && MigrationType(c, w) && MigrationHolds(c, w, p) && InDomain(revoked)
    requires p.classRoot == TreeRoot(c, leaves) && p.revocationRoot == SetRoot(c, revoked)
    requires MigrationQueries(c, w, p.agora, leaves, revoked) <= q && CollisionFree(c, q)
    ensures var leaf := OldLeaf(c, w, p.agora).value;
            && w.oldLeafWitness.index < |leaves|
            && Value(leaves[w.oldLeafWitness.index]) == Value(leaf) != 0
            && OrderOf(RevocationKey(c, leaf)) !in revoked
  {
    var leaf := OldLeaf(c, w, p.agora).value;
    var opening := OpeningPreimage(c, w.oldRootPublicKey, w.credentialKey, w.oldRootOpening, p.agora);
    assert opening in q;
    NonEmpty(c, q, opening);
    OpenedValue(c, w.oldRootPublicKey, w.credentialKey, w.oldRootOpening, p.agora);
    VerifiedLeafIsPlaced(c, leaves, leaf, w.oldLeafWitness, q);
    AbsenceSound(c, revoked, RevocationKey(c, leaf), w.revocationAbsence, q);
  }

  /** The spend that consumes a leaf depends only on the field values involved. */
  lemma SpendOfValues(c: Scheme, key: Bytes32, leaf: Bytes32, key': Bytes32, leaf': Bytes32, agora: Bytes32)
    requires Value(key) == Value(key') && Value(leaf) == Value(leaf')
    ensures SpendNullifier(c, key, leaf, agora) == SpendNullifier(c, key', leaf', agora)
  {
  }
}
