/** The field-native statements the proving crate evaluates, the conversions from byte
    statements, and the proof that the conversions preserve meaning. */
module Translation {
  import opened Wrappers
  import opened Bytes
  import opened Crypto
  import opened Merkle
  import BatchTree
  import SparseTree
  import Exclusion
  import GapSets
  import opened Statements

  datatype Certificate = Certificate(r: Point, s: nat)

  datatype FieldChainPublic = FieldChainPublic(
    agora: F, epoch: F, classRoot: F, revocationRoot: F, spendRoot: F, actionTag: F, actionContext: F, actionOutput: F)

  datatype FieldChainWitness = FieldChainWitness(
    epochKeyBytes: Bytes32, epochPublicKey: Point, epochCertificate: Certificate,
    credentialKey: F, rootOpening: F, rootPublicKey: Point,
    classPath: SparseTree.Path, revocationAbsence: GapSets.AbsenceWitness, spendAbsence: GapSets.AbsenceWitness)

  datatype FieldMigrationPublic = FieldMigrationPublic(
    agora: F, classRoot: F, revocationRoot: F, spend: F, successor: F)

  datatype FieldMigrationWitness = FieldMigrationWitness(
    oldRootPublicKey: Point, oldRootOpening: F, credentialKey: F, oldClassPath: SparseTree.Path,
    migrationCertificate: Certificate, successorPublicKey: Point, successorOpening: F,
    revocationAbsence: GapSets.AbsenceWitness)

  datatype FieldInboxPublic = FieldInboxPublic(agora: F, leaf: F, inboxKey: F, action: F)

  datatype FieldInboxWitness = FieldInboxWitness(
    rootPublicKey: Point, rootOpening: F, credentialKey: F, certificate: Certificate)

  // ---- The evaluators ----

  predicate CertificateHolds(c: Scheme, cert: Certificate, pk: Point, payload: F) {
    Equation(c, cert.r, cert.s, pk, payload)
  }

  function LeafOf(c: Scheme, pk: Point, key: F, opening: F, agora: F): F {
    Poseidon(c, LeafPreimage(pk, key, opening, agora))
  }

  function RevocationEntry(c: Scheme, leaf: F): F {
    Poseidon(c, [REVOKE, leaf])
  }

  function SpendEntry(c: Scheme, key: F, leaf: F, agora: F): F {
    Poseidon(c, [SPEND, key, leaf, agora])
  }

  predicate FieldChainType(c: Scheme, w: FieldChainWitness) {
    && GapSets.PathType(c, w.classPath)
    && GapSets.PathType(c, w.revocationAbsence.path)
    && GapSets.PathType(c, w.spendAbsence.path)
  }

  /** The action clause: tag in range, key selected by tag, output as derived, or zero for
      verification access. */
  predicate ActionSatisfied(c: Scheme, epochKey: F, credentialKey: F, p: FieldChainPublic) {
    && p.actionTag in {AUTHORSHIP, VOUCH, POLICY, LIVE_AUTH, VERIFICATION}
    && var key := if p.actionTag == AUTHORSHIP || p.actionTag == LIVE_AUTH then epochKey else credentialKey;
    && var derived := ActionOutput(c, p.actionTag, key, p.actionContext, p.agora);
    && (if p.actionTag == VERIFICATION then 0 else derived) == p.actionOutput
  }

  predicate SatisfiesChain(c: Scheme, w: FieldChainWitness, p: FieldChainPublic)
    requires FieldChainType(c, w)
  {
    && DecodeScalar(c, w.epochKeyBytes).Some?
    && var epochKey := DecodeScalar(c, w.epochKeyBytes).value;
    && c.mulBase(epochKey) == w.epochPublicKey
    && CertificateHolds(c, w.epochCertificate, w.rootPublicKey,
                        Poseidon(c, [EPOCH_CERT, p.agora, p.epoch, w.epochPublicKey.u, w.epochPublicKey.v]))
    && var leaf := LeafOf(c, w.rootPublicKey, w.credentialKey, w.rootOpening, p.agora);
    && SparseTree.PathRoot(c, leaf, w.classPath.siblings, w.classPath.bits) == p.classRoot
    && GapSets.VerifiesAbsent(c, RevocationEntry(c, leaf), w.revocationAbsence, p.revocationRoot)
    && GapSets.VerifiesAbsent(c, SpendEntry(c, w.credentialKey, leaf, p.agora), w.spendAbsence, p.spendRoot)
    && ActionSatisfied(c, epochKey, w.credentialKey, p)
  }

  predicate FieldMigrationType(c: Scheme, w: FieldMigrationWitness) {
    GapSets.PathType(c, w.oldClassPath) && GapSets.PathType(c, w.revocationAbsence.path)
  }

  predicate SatisfiesMigration(c: Scheme, w: FieldMigrationWitness, p: FieldMigrationPublic)
    requires FieldMigrationType(c, w)
  {
    && var leaf := LeafOf(c, w.oldRootPublicKey, w.credentialKey, w.oldRootOpening, p.agora);
    && SparseTree.PathRoot(c, leaf, w.oldClassPath.siblings, w.oldClassPath.bits) == p.classRoot
    && GapSets.VerifiesAbsent(c, RevocationEntry(c, leaf), w.revocationAbsence, p.revocationRoot)
    && SpendEntry(c, w.credentialKey, leaf, p.agora) == p.spend
    && CertificateHolds(c, w.migrationCertificate, w.oldRootPublicKey,
                        Poseidon(c, [MIGRATION_CERT, p.agora, w.successorPublicKey.u, w.successorPublicKey.v]))
    && LeafOf(c, w.successorPublicKey, w.credentialKey, w.successorOpening, p.agora) == p.successor
  }

  predicate SatisfiesInbox(c: Scheme, w: FieldInboxWitness, p: FieldInboxPublic) {
    && LeafOf(c, w.rootPublicKey, w.credentialKey, w.rootOpening, p.agora) == p.leaf
    && (p.action == Retire.Tag() || p.action == Renew.Tag())
    && CertificateHolds(c, w.certificate, w.rootPublicKey, Poseidon(c, [INBOX_CERT, p.agora, p.action, p.inboxKey]))
  }

  // ---- The conversions ----

  function DecodeCertificate(c: Scheme, b: seq<byte>): Option<Certificate> {
    if |b| != 64 then None
    else match (DecodePoint(c, b[..32]), DecodeScalar(c, b[32..]))
      case (Some(r), Some(s)) => Some(Certificate(r, s))
      case _ => None
  }

  predicate AllCanonical(siblings: seq<Bytes32>) {
    forall i :: 0 <= i < |siblings| ==> Decode(siblings[i]).Some?
  }

  function ConvertPath(c: Scheme, w: BatchTree.Witness): Option<SparseTree.Path> {
    if AllCanonical(w.siblings)
    then Some(SparseTree.Path(BatchTree.Values(w.siblings), SparseTree.Bits(w.index, |w.siblings|)))
    else None
  }

  /** The conversion as it runs: each level's sibling decoded strictly and its bit shifted out,
      refusing at the first sibling that names no element. */
  method ConvertPathLevels(c: Scheme, w: BatchTree.Witness) returns (path: Option<SparseTree.Path>)
    requires BatchTree.WitnessType(c, w)
    ensures path == ConvertPath(c, w)
  {
    var siblings, bits := [], [];
    for level := 0 to c.depth
      invariant |siblings| == |bits| == level
      invariant forall i :: 0 <= i < level ==> Decode(w.siblings[i]) == Some(siblings[i])
      invariant forall i :: 0 <= i < level ==> bits[i] == SparseTree.Bits(w.index, c.depth)[i]
    {
      match Decode(w.siblings[level]) {
        case None => return None;
        case Some(sibling) => siblings := siblings + [sibling];
      }
      SparseTree.BitsAt(w.index, c.depth, level);
      bits := bits + [Shr(w.index, level) % 2 == 1];
    }
    assert siblings == BatchTree.Values(w.siblings) by {
      forall i | 0 <= i < c.depth ensures siblings[i] == Value(w.siblings[i]) {
        DecodedIsCanonical(w.siblings[i]);
      }
    }
    assert bits == SparseTree.Bits(w.index, c.depth);
    return Some(SparseTree.Path(siblings, bits));
  }

  function ConvertAbsence(c: Scheme, w: Exclusion.AbsenceWitness): Option<GapSets.AbsenceWitness> {
    match (Decode(w.low), Decode(w.high), ConvertPath(c, w.path))
    case (Some(low), Some(high), Some(path)) => Some(GapSets.AbsenceWitness(low, high, path))
    case _ => None
  }

  /** The action's tag, context element and, unless it derives nothing, its decoded output. */
  function ConvertAction(c: Scheme, a: Action): Option<(F, F, F)> {
    match a
    case Authorship(hash, nullifier) =>
      if Decode(nullifier).None? then None else Some((AUTHORSHIP, FromId(hash), Decode(nullifier).value))
    case Vouch(session, nullifier) =>
      if Decode(nullifier).None? then None else Some((VOUCH, FromContextBytes(c, session), Decode(nullifier).value))
    case PolicyApproval(proposal, nullifier) =>
      if Decode(nullifier).None? then None else Some((POLICY, FromContextBytes(c, proposal), Decode(nullifier).value))
    case LiveAuth(context, pseudonym) =>
      if Decode(pseudonym).None? then None else Some((LIVE_AUTH, FromId(context), Decode(pseudonym).value))
    case VerificationAccess(challenge) => Some((VERIFICATION, FromContextBytes(c, challenge), 0))
  }

  function ConvertChainPublic(c: Scheme, p: ChainPublic): Option<FieldChainPublic> {
    match (Decode(p.classRoot), Decode(p.revocationRoot), Decode(p.spendRoot), ConvertAction(c, p.action))
    case (Some(class_), Some(revocation), Some(spend), Some((tag, context, output))) =>
      Some(FieldChainPublic(FromId(p.agora), p.epoch, class_, revocation, spend, tag, context, output))
    case _ => None
  }

  function ConvertChainWitness(c: Scheme, w: ChainWitness): Option<FieldChainWitness> {
    match (DecodePoint(c, w.epochPublicKey), DecodeCertificate(c, w.epochCert), DecodePoint(c, w.rootPublicKey),
           ConvertPath(c, w.leafWitness))
    case (Some(epk), Some(cert), Some(pk), Some(path)) => (
      match (Decode(w.credentialKey), Decode(w.rootOpening),
             ConvertAbsence(c, w.revocationAbsence), ConvertAbsence(c, w.spendAbsence))
      case (Some(key), Some(opening), Some(revocation), Some(spend)) =>
        Some(FieldChainWitness(w.epochKey, epk, cert, key, opening, pk, path, revocation, spend))
      case _ => None)
    case _ => None
  }

  function ConvertMigrationPublic(c: Scheme, p: MigrationPublic): Option<FieldMigrationPublic> {
    match (Decode(p.classRoot), Decode(p.revocationRoot), Decode(p.spend), Decode(p.successor))
    case (Some(class_), Some(revocation), Some(spend), Some(successor)) =>
      Some(FieldMigrationPublic(FromId(p.agora), class_, revocation, spend, successor))
    case _ => None
  }

  function ConvertMigrationWitness(c: Scheme, w: MigrationWitness): Option<FieldMigrationWitness> {
    match (DecodePoint(c, w.oldRootPublicKey), DecodeCertificate(c, w.migrationCert),
           DecodePoint(c, w.successorPublicKey), ConvertPath(c, w.oldLeafWitness))
    case (Some(old_), Some(cert), Some(successor), Some(path)) => (
      match (Decode(w.oldRootOpening), Decode(w.credentialKey), Decode(w.successorOpening),
             ConvertAbsence(c, w.revocationAbsence))
      case (Some(opening), Some(key), Some(fresh_), Some(revocation)) =>
        Some(FieldMigrationWitness(old_, opening, key, path, cert, successor, fresh_, revocation))
      case _ => None)
    case _ => None
  }

  function ConvertInboxPublic(c: Scheme, p: InboxPublic): Option<FieldInboxPublic> {
    match Decode(p.leaf)
    case Some(leaf) => Some(FieldInboxPublic(FromId(p.agora), leaf, FromId(p.inbox), p.action.Tag()))
    case None => None
  }

  function ConvertInboxWitness(c: Scheme, w: InboxWitness): Option<FieldInboxWitness> {
    match (DecodePoint(c, w.rootPublicKey), Decode(w.rootOpening), Decode(w.credentialKey),
           DecodeCertificate(c, w.inboxCert))
    case (Some(pk), Some(opening), Some(key), Some(cert)) => Some(FieldInboxWitness(pk, opening, key, cert))
    case _ => None
  }

  // ---- Clause by clause ----

  /** Comparing canonical bytes is comparing elements. */
  lemma SameElement(f: F, b: Bytes32)
    requires InField(f) && Decode(b).Some?
    ensures ToBytes(f) == b <==> f == Decode(b).value
  {
    DecodedIsCanonical(b);
    ValueOfToBytes(f);
  }

  lemma HashCompares(c: Scheme, xs: seq<F>, b: Bytes32)
    requires Primitives(c) && Decode(b).Some?
    ensures ToBytes(Poseidon(c, xs)) == b <==> Poseidon(c, xs) == Decode(b).value
  {
    HashInField(c, xs);
    SameElement(Poseidon(c, xs), b);
  }

  lemma InclusionTranslates(c: Scheme, leaf: F, w: BatchTree.Witness, root: Bytes32)
    requires Primitives(c) && BatchTree.WitnessType(c, w) && ConvertPath(c, w).Some? && Decode(root).Some?
    ensures var path := ConvertPath(c, w).value;
            && GapSets.PathType(c, path)
            && (BatchTree.RootFrom(c, leaf, w) == root
                <==> SparseTree.PathRoot(c, leaf, path.siblings, path.bits) == Decode(root).value)
  {
    SparseTree.BitPathIsFold(c, leaf, w.index, BatchTree.Values(w.siblings));
    BatchTree.FoldInField(c, leaf, w);
    SameElement(Fold(c, leaf, w.index, BatchTree.Values(w.siblings)), root);
  }

  predicate GapInDomain(w: Exclusion.AbsenceWitness) {
    LE(w.low) < SPAN253 && LE(w.high) < SPAN253
  }

  /** The byte check is the field check plus the range of both bounds. */
  lemma AbsenceTranslates(c: Scheme, entry: F, w: Exclusion.AbsenceWitness, root: Bytes32)
    requires Primitives(c) && Exclusion.AbsenceType(c, w) && InField(entry)
    requires ConvertAbsence(c, w).Some? && Decode(root).Some?
    ensures GapSets.PathType(c, ConvertAbsence(c, w).value.path)
    ensures Exclusion.VerifiesAbsent(c, ToBytes(entry), w, root)
       <==> GapInDomain(w) && GapSets.VerifiesAbsent(c, entry, ConvertAbsence(c, w).value, Decode(root).value)
  {
    ValueOfToBytes(entry);
    Exclusion.TruncationIsReduction(ToBytes(entry));
    Exclusion.TruncationIsReduction(w.low);
    Exclusion.TruncationIsReduction(w.high);
    DecodedIsCanonical(w.low);
    DecodedIsCanonical(w.high);
    InclusionTranslates(c, Exclusion.GapLeaf(c, w.low, w.high), w.path, root);
  }

  lemma SignatureTranslates(c: Scheme, pk: seq<byte>, message: F, signature: seq<byte>)
    requires DecodePoint(c, pk).Some? && DecodeCertificate(c, signature).Some?
    ensures VerifySignature(c, pk, message, signature)
       <==> CertificateHolds(c, DecodeCertificate(c, signature).value, DecodePoint(c, pk).value, message)
  {
  }

  /** A public key compares equal as bytes exactly when it does as a point. */
  lemma KeyTranslates(c: Scheme, sk: Bytes32, pk: seq<byte>)
    requires PointCodec(c) && DecodePoint(c, pk).Some?
    ensures PublicKey(c, sk) == Some(pk)
       <==> DecodeScalar(c, sk).Some? && c.mulBase(DecodeScalar(c, sk).value) == DecodePoint(c, pk).value
  {
    if DecodeScalar(c, sk).Some? {
      var s := DecodeScalar(c, sk).value;
      assert c.pointFrom(c.pointTo(c.mulBase(s))) == Some(c.mulBase(s));
      assert c.pointTo(c.pointFrom(pk).value) == pk;
    }
  }

  lemma LeafTranslates(c: Scheme, pk: seq<byte>, key: Bytes32, opening: Bytes32, agora: Bytes32)
    requires Primitives(c) && DecodePoint(c, pk).Some? && Decode(key).Some? && Decode(opening).Some?
    ensures var leaf := LeafOf(c, DecodePoint(c, pk).value, Decode(key).value, Decode(opening).value, FromId(agora));
            && InField(leaf)
            && Commit(c, pk, key, opening, agora) == Some(ToBytes(leaf))
            && Value(ToBytes(leaf)) == leaf
            && RevocationKey(c, ToBytes(leaf)) == ToBytes(RevocationEntry(c, leaf))
            && SpendNullifier(c, key, ToBytes(leaf), agora) == ToBytes(SpendEntry(c, Decode(key).value, leaf, FromId(agora)))
  {
    DecodedIsCanonical(key);
    DecodedIsCanonical(opening);
    OpenedValue(c, pk, key, opening, agora);
    HashInField(c, OpeningPreimage(c, pk, key, opening, agora));
  }

  lemma ActionTranslates(c: Scheme, w: ChainWitness, agora: Bytes32, action: Action, p: FieldChainPublic)
    requires Primitives(c) && DecodeScalar(c, w.epochKey).Some? && Decode(w.credentialKey).Some?
    requires ConvertAction(c, action) == Some((p.actionTag, p.actionContext, p.actionOutput))
    requires p.agora == FromId(agora)
    ensures ActionDerived(c, w, agora, action)
       <==> ActionSatisfied(c, DecodeScalar(c, w.epochKey).value, Decode(w.credentialKey).value, p)
  {
    DecodedIsCanonical(w.credentialKey);
    assert Value(w.epochKey) == LE(w.epochKey) == DecodeScalar(c, w.epochKey).value;
    match action {
      case Authorship(hash, n) => HashCompares(c, [ACTION, AUTHORSHIP, Value(w.epochKey), p.actionContext, p.agora], n);
      case Vouch(session, n) => HashCompares(c, [ACTION, VOUCH, Value(w.credentialKey), p.actionContext, p.agora], n);
      case PolicyApproval(_, n) => HashCompares(c, [ACTION, POLICY, Value(w.credentialKey), p.actionContext, p.agora], n);
      case LiveAuth(_, n) => HashCompares(c, [ACTION, LIVE_AUTH, Value(w.epochKey), p.actionContext, p.agora], n);
      case VerificationAccess(_) =>
    }
  }

  // ---- The statements ----

  /** The leaf clauses of the chain, together. */
  lemma LeafClausesTranslate(c: Scheme, w: ChainWitness, p: ChainPublic)
    requires Primitives(c) && ChainType(c, w)
    requires ConvertChainWitness(c, w).Some? && ConvertChainPublic(c, p).Some?
    ensures FieldChainType(c, ConvertChainWitness(c, w).value)
    ensures OpenedLeaf(c, w, p.agora).Some?
    ensures var fw, fp := ConvertChainWitness(c, w).value, ConvertChainPublic(c, p).value;
            var leaf := LeafOf(c, fw.rootPublicKey, fw.credentialKey, fw.rootOpening, fp.agora);
            var byteLeaf := OpenedLeaf(c, w, p.agora).value;
            && (BatchTree.Verifies(c, byteLeaf, w.leafWitness, p.classRoot)
                <==> SparseTree.PathRoot(c, leaf, fw.classPath.siblings, fw.classPath.bits) == fp.classRoot)
            && (Exclusion.VerifiesAbsent(c, RevocationKey(c, byteLeaf), w.revocationAbsence, p.revocationRoot)
                <==> GapInDomain(w.revocationAbsence)
                     && GapSets.VerifiesAbsent(c, RevocationEntry(c, leaf), fw.revocationAbsence, fp.revocationRoot))
            && (Exclusion.VerifiesAbsent(c, SpendNullifier(c, w.credentialKey, byteLeaf, p.agora), w.spendAbsence, p.spendRoot)
                <==> GapInDomain(w.spendAbsence)
                     && GapSets.VerifiesAbsent(c, SpendEntry(c, fw.credentialKey, leaf, fp.agora), fw.spendAbsence, fp.spendRoot))
  {
    var fw, fp := ConvertChainWitness(c, w).value, ConvertChainPublic(c, p).value;
    var leaf := LeafOf(c, fw.rootPublicKey, fw.credentialKey, fw.rootOpening, fp.agora);
    LeafTranslates(c, w.rootPublicKey, w.credentialKey, w.rootOpening, p.agora);
    InclusionTranslates(c, leaf, w.leafWitness, p.classRoot);
    HashInField(c, [REVOKE, leaf]);
    AbsenceTranslates(c, RevocationEntry(c, leaf), w.revocationAbsence, p.revocationRoot);
    HashInField(c, [SPEND, fw.credentialKey, leaf, fp.agora]);
    AbsenceTranslates(c, SpendEntry(c, fw.credentialKey, leaf, fp.agora), w.spendAbsence, p.spendRoot);
  }

  /** The chain statement, exactly: on convertible inputs the byte statement holds if and only
      if every gap bound is in the ordering domain and the field statement holds. */
  lemma ChainTranslates(c: Scheme, w: ChainWitness, p: ChainPublic)
    requires Primitives(c) && PointCodec(c) && ChainType(c, w)
    requires ConvertChainWitness(c, w).Some? && ConvertChainPublic(c, p).Some?
    ensures FieldChainType(c, ConvertChainWitness(c, w).value)
    ensures ChainHolds(c, w, p)
       <==> GapInDomain(w.revocationAbsence) && GapInDomain(w.spendAbsence)
            && SatisfiesChain(c, ConvertChainWitness(c, w).value, ConvertChainPublic(c, p).value)
  {
    var fw, fp := ConvertChainWitness(c, w).value, ConvertChainPublic(c, p).value;
    LeafClausesTranslate(c, w, p);
    KeyTranslates(c, w.epochKey, w.epochPublicKey);
    SignatureTranslates(c, w.rootPublicKey, EpochCertMessage(c, p.agora, p.epoch, w.epochPublicKey).value, w.epochCert);
    if DecodeScalar(c, w.epochKey).Some? {
      ActionTranslates(c, w, p.agora, p.action, fp);
    }
  }

  /** The migration statement, exactly. */
  lemma MigrationTranslates(c: Scheme, w: MigrationWitness, p: MigrationPublic)
    requires Primitives(c) && MigrationType(c, w)
    requires ConvertMigrationWitness(c, w).Some? && ConvertMigrationPublic(c, p).Some?
    ensures FieldMigrationType(c, ConvertMigrationWitness(c, w).value)
    ensures MigrationHolds(c, w, p)
       <==> GapInDomain(w.revocationAbsence)
            && SatisfiesMigration(c, ConvertMigrationWitness(c, w).value, ConvertMigrationPublic(c, p).value)
  {
    var fw, fp := ConvertMigrationWitness(c, w).value, ConvertMigrationPublic(c, p).value;
    var leaf := LeafOf(c, fw.oldRootPublicKey, fw.credentialKey, fw.oldRootOpening, fp.agora);
    LeafTranslates(c, w.oldRootPublicKey, w.credentialKey, w.oldRootOpening, p.agora);
    InclusionTranslates(c, leaf, w.oldLeafWitness, p.classRoot);
    HashInField(c, [REVOKE, leaf]);
    AbsenceTranslates(c, RevocationEntry(c, leaf), w.revocationAbsence, p.revocationRoot);
    HashCompares(c, [SPEND, fw.credentialKey, leaf, fp.agora], p.spend);
    SignatureTranslates(c, w.oldRootPublicKey, MigrationCertMessage(c, p.agora, w.successorPublicKey).value, w.migrationCert);
    LeafTranslates(c, w.successorPublicKey, w.credentialKey, w.successorOpening, p.agora);
    SameElement(LeafOf(c, fw.successorPublicKey, fw.credentialKey, fw.successorOpening, fp.agora), p.successor);
  }

  /** The inbox statement, exactly. */
  lemma InboxTranslates(c: Scheme, w: InboxWitness, p: InboxPublic)
    requires Primitives(c)
    requires ConvertInboxWitness(c, w).Some? && ConvertInboxPublic(c, p).Some?
    ensures InboxHolds(c, w, p)
       <==> SatisfiesInbox(c, ConvertInboxWitness(c, w).value, ConvertInboxPublic(c, p).value)
  {
    var fw, fp := ConvertInboxWitness(c, w).value, ConvertInboxPublic(c, p).value;
    LeafTranslates(c, w.rootPublicKey, w.credentialKey, w.rootOpening, p.agora);
    SameElement(LeafOf(c, fw.rootPublicKey, fw.credentialKey, fw.rootOpening, fp.agora), p.leaf);
    SignatureTranslates(c, w.rootPublicKey, InboxCertMessage(c, p.agora, p.action.Tag(), p.inbox), w.inboxCert);
  }
}
