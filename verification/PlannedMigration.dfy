/** A planned migration end to end: the old device's authorization, the handoff as bytes, the
    successor's completion, the proof, and the operator's acceptance. */
module PlannedMigration {
  import opened Wrappers
  import opened Bytes
  import opened Crypto
  import opened Merkle
  import opened BatchTree
  import opened Exclusion
  import opened Statements
  import opened Operator
  import opened OperatorLayout
  import opened OperatorRuns
  import opened OperatorReceipts
  import opened OperatorSafety
  import opened Credentials
  import opened Handoffs

  /** The secrets behind one migration: each device's root, and the successor's entropy. */
  datatype Parties = Parties(oldRoot: Bytes32, newRoot: Bytes32, opening: Bytes32, inboxKey: Bytes32)

  ghost predicate CanSign(c: Scheme, p: Parties) {
    PublicKey(c, p.oldRoot).Some? && PublicKey(c, p.newRoot).Some?
  }

  function OldKey(c: Scheme, p: Parties): Bytes32
    requires PublicKey(c, p.oldRoot).Some?
  {
    PublicKey(c, p.oldRoot).value
  }

  function NewKey(c: Scheme, p: Parties): Bytes32
    requires PublicKey(c, p.newRoot).Some?
  {
    PublicKey(c, p.newRoot).value
  }

  /** The old device holds a credential made under its root. */
  ghost predicate Holds(c: Scheme, d: Disk, agora: Bytes32, p: Parties)
    requires PublicKey(c, p.oldRoot).Some?
  {
    && LoadSecret(d, agora, CredentialKey).Ok?
    && LoadSecret(d, agora, RootOpening).Ok?
    && LoadSecret(d, agora, InboxKey).Ok?
    && (agora, RootPublicKey) in d.slots && d.slots[(agora, RootPublicKey)] == OldKey(c, p)
  }

  /** What the old device's root signs over the successor's key. */
  function Certificate(c: Scheme, agora: Bytes32, p: Parties): Result<seq<byte>>
    requires PublicKey(c, p.newRoot).Some?
  {
    match MigrationCertMessage(c, agora, NewKey(c, p))
    case None => Err(Malformed)
    case Some(message) => Ok(c.sign(p.oldRoot, message))
  }

  /** The old device's whole side: the bytes that cross to the successor. */
  function Authorized(c: Scheme, d: Disk, agora: Bytes32, p: Parties, retire: Result<seq<byte>>, outRoom: nat): Result<seq<byte>>
    requires PublicKey(c, p.newRoot).Some?
  {
    AuthorizeMigration(d, agora, 32, Certificate(c, agora, p), retire, outRoom).1
  }

  lemma KeyDecodes(c: Scheme, sk: Bytes32)
    requires PointCodec(c) && PublicKey(c, sk).Some?
    ensures DecodePoint(c, PublicKey(c, sk).value).Some?
  {
    var s := DecodeScalar(c, sk).value;
    assert c.pointFrom(c.pointTo(c.mulBase(s))) == Some(c.mulBase(s));
  }

  lemma CertificateSigns(c: Scheme, agora: Bytes32, p: Parties)
    requires PointCodec(c) && SignLaw(c) && CanSign(c, p)
    ensures Certificate(c, agora, p).Ok? && |Certificate(c, agora, p).value| == 64
    ensures MigrationCertMessage(c, agora, NewKey(c, p)).Some?
    ensures VerifySignature(c, OldKey(c, p), MigrationCertMessage(c, agora, NewKey(c, p)).value, Certificate(c, agora, p).value)
  {
    KeyDecodes(c, p.newRoot);
    var message := MigrationCertMessage(c, agora, NewKey(c, p)).value;
    assert VerifySignature(c, PublicKey(c, p.oldRoot).value, message, c.sign(p.oldRoot, message));
  }

  /** The handoff the old device's bytes decode to. */
  function Delivered(c: Scheme, d: Disk, agora: Bytes32, p: Parties, retire: seq<byte>): Handoff
    requires CanSign(c, p) && Holds(c, d, agora, p) && Certificate(c, agora, p).Ok?
  {
    Handoff(agora, LoadSecret(d, agora, CredentialKey).value, LoadSecret(d, agora, RootOpening).value,
            OldKey(c, p), Certificate(c, agora, p).value, retire)
  }

  /** What the old device writes, the successor reads back: exactly its material, its root key
      and the two certificates. */
  lemma HandoffArrives(c: Scheme, d: Disk, agora: Bytes32, p: Parties, retire: seq<byte>, outRoom: nat)
    requires PointCodec(c) && SignLaw(c) && CanSign(c, p) && Holds(c, d, agora, p) && |retire| < U64
    requires Authorized(c, d, agora, p, Ok(retire), outRoom).Ok?
    ensures Certificate(c, agora, p).Ok?
    ensures Decoded(Authorized(c, d, agora, p, Ok(retire), outRoom).value) == Ok(Delivered(c, d, agora, p, retire))
  {
    hide ActingDestroyed, Encoded, Decoded, EncodedLen, Certificate, PublicKey, LoadSecret, PointCodec, SignLaw;
    CertificateSigns(c, agora, p);
    var h := Delivered(c, d, agora, p, retire);
    DecodesExactlyEncodings(Encoded(h), h);
  }

  /** The old leaf, as the operator landed it. */
  function LeafOf(c: Scheme, d: Disk, agora: Bytes32, p: Parties): Option<Bytes32>
    requires CanSign(c, p) && Holds(c, d, agora, p)
  {
    Commit(c, OldKey(c, p), LoadSecret(d, agora, CredentialKey).value, LoadSecret(d, agora, RootOpening).value, agora)
  }

  /** The witness the successor proves with, from the handoff and the envelope's tree and set. */
  function SuccessorWitness(c: Scheme, h: Handoff, newKey: Bytes32, opening: Bytes32,
                            leaves: seq<Bytes32>, position: nat, revoked: set<nat>, leaf: Bytes32): MigrationWitness
  {
    MigrationWitness(h.rootPublicKey, h.rootOpening, h.credentialKey, Witness(position, PathBytes(c, leaves, position)),
                     h.migrationCert, newKey, MintSecret(opening), AbsenceOf(c, revoked, RevocationKey(c, leaf)))
  }

  /** The statement the successor submits. */
  function Submission(c: Scheme, agora: Bytes32, leaves: seq<Bytes32>, revoked: set<nat>, made: Successor): MigrationPublic {
    MigrationPublic(agora, TreeRoot(c, leaves), SetRoot(c, revoked), made.spend, made.commitment)
  }

  /** The leaf is provably unrevoked: in neither the set nor its sentinels, and in a gap the gap
      tree had room for. */
  ghost predicate Unrevoked(c: Scheme, revoked: set<nat>, leaf: Bytes32) {
    && InDomain(revoked) && GapKept(c, revoked, RevocationKey(c, leaf))
    && OrderOf(RevocationKey(c, leaf)) !in revoked
    && 0 < OrderOf(RevocationKey(c, leaf)) < UPPER
  }

  /** What the successor derived and stored satisfies the migration statement against any tree
      holding the old leaf and any set not revoking it. */
  lemma HandoffProves(c: Scheme, d: Disk, agora: Bytes32, p: Parties, retire: seq<byte>, d2: Disk,
                      leaves: seq<Bytes32>, position: nat, revoked: set<nat>)
    requires Primitives(c) && PointCodec(c) && SignLaw(c) && CanSign(c, p) && Holds(c, d, agora, p) && Certificate(c, agora, p).Ok?
    requires var made := CompleteMigration(c, d2, agora, Delivered(c, d, agora, p, retire), NewKey(c, p), p.opening, p.inboxKey).1;
             made.Ok?
    requires position < |leaves| <= Pow2(c.depth)
    requires LeafOf(c, d, agora, p) == Some(leaves[position]) && Unrevoked(c, revoked, leaves[position])
    ensures var h := Delivered(c, d, agora, p, retire);
            var made := CompleteMigration(c, d2, agora, h, NewKey(c, p), p.opening, p.inboxKey).1.value;
            var w := SuccessorWitness(c, h, NewKey(c, p), p.opening, leaves, position, revoked, leaves[position]);
            MigrationType(c, w) && MigrationHolds(c, w, Submission(c, agora, leaves, revoked, made))
  {
    hide MaterialStored, Verifies, VerifiesAbsent, VerifySignature, Commit, TreeRoot, SetRoot, PathBytes, AbsenceOf, AbsenceType,
      OrderOf, RevocationKey, SpendNullifier, PublicKey, LoadSecret, Certificate, MigrationCertMessage, PointCodec, SignLaw;
    CertificateSigns(c, agora, p);
    PathVerifies(c, leaves, position);
    AbsenceComplete(c, revoked, RevocationKey(c, leaves[position]));
  }

  /** The operator takes a migration whose statement is proved, when the agora lives, the class
      has room, and spend and successor are new: exactly then. */
  ghost predicate Acceptable(c: Scheme, s: State, k: Bytes32, spend: Bytes32, successor: Bytes32) {
    && Live(s)
    && k in s.classes && Remaining(c, s, k) != 0
    && OrderOf(spend) !in s.spends && spend !in s.staged.spends
    && successor !in s.classes[k].positions && (k, successor) !in s.staged.admissions
  }

  lemma ProvedIsAccepted(c: Scheme, w: World, k: Bytes32, proof: StubProof<MigrationWitness>,
                         spend: Bytes32, successor: Bytes32, inbox: Bytes32)
    requires Primitives(c) && Sound(c, w) && k in w.s.classes
    requires VerifyMigration(c, proof, MigrationPublic(w.s.agora, TreeRoot(c, w.s.classes[k].leaves),
                                                       SetRoot(c, w.s.revocations), spend, successor))
    ensures Migrate(c, w.s, k, proof, spend, successor, inbox).1.Ok? <==> Acceptable(c, w.s, k, spend, successor)
  {
    hide Core, Growing, VerifyMigration, TreeRoot, SetRoot, OrderOf, Remaining, StagedIn, RootsIn;
    HereRoots(c, w, k);
    RootsNow(c, w.g.genesis, w.g.past, w.s, k);
  }

  /** An honest planned migration composes. In every run: what the old device authorized, carried
      as bytes and decoded, completed on the successor, and proved against the epoch's tree and
      set, the operator accepts exactly when it lives, the class has room, and spend and
      successor are new. */
  lemma PlannedMigrationAccepted(c: Scheme, w: World, k: Bytes32, d: Disk, p: Parties, retire: seq<byte>, outRoom: nat, d2: Disk,
                                 position: nat)
    requires Primitives(c) && PointCodec(c) && SignLaw(c) && Reachable(c, w)
    requires CanSign(c, p) && Holds(c, d, w.s.agora, p) && |retire| < U64
    requires Authorized(c, d, w.s.agora, p, Ok(retire), outRoom).Ok?
    requires k in w.s.classes && position < |w.s.classes[k].leaves|
    requires LeafOf(c, d, w.s.agora, p) == Some(w.s.classes[k].leaves[position])
    requires Unrevoked(c, w.s.revocations, w.s.classes[k].leaves[position])
    requires var h := Decoded(Authorized(c, d, w.s.agora, p, Ok(retire), outRoom).value);
             h.Ok? && CompleteMigration(c, d2, w.s.agora, h.value, NewKey(c, p), p.opening, p.inboxKey).1.Ok?
    ensures var leaf := w.s.classes[k].leaves[position];
            var h := Decoded(Authorized(c, d, w.s.agora, p, Ok(retire), outRoom).value).value;
            var made := CompleteMigration(c, d2, w.s.agora, h, NewKey(c, p), p.opening, p.inboxKey).1.value;
            var x := SuccessorWitness(c, h, NewKey(c, p), p.opening, w.s.classes[k].leaves, position, w.s.revocations, leaf);
            var proof := ProveMigration(c, x, Submission(c, w.s.agora, w.s.classes[k].leaves, w.s.revocations, made));
            && proof.Ok?
            && (Migrate(c, w.s, k, proof.value, made.spend, made.commitment, made.inbox).1.Ok?
                <==> Acceptable(c, w.s, k, made.spend, made.commitment))
  {
    hide Reachable, Sound, Authorized, Decoded, CompleteMigration, MigrationHolds, MigrationType, Certificate, PublicKey, LoadSecret,
      LeafOf, Unrevoked, Migrate, Acceptable, TreeRoot, SetRoot, SuccessorWitness, ClassOk, Holds, PointCodec, SignLaw;
    ReachableIsSound(c, w);
    HandoffArrives(c, d, w.s.agora, p, retire, outRoom);
    LandedFits(c, w, k);
    var h := Delivered(c, d, w.s.agora, p, retire);
    HandoffProves(c, d, w.s.agora, p, retire, d2, w.s.classes[k].leaves, position, w.s.revocations);
    var made := CompleteMigration(c, d2, w.s.agora, h, NewKey(c, p), p.opening, p.inboxKey).1.value;
    var x := SuccessorWitness(c, h, NewKey(c, p), p.opening, w.s.classes[k].leaves, position, w.s.revocations,
                              w.s.classes[k].leaves[position]);
    var public := Submission(c, w.s.agora, w.s.classes[k].leaves, w.s.revocations, made);
    MigrationStubIsHonest(c, x, public);
    ProvedIsAccepted(c, w, k, ProveMigration(c, x, public).value, made.spend, made.commitment, made.inbox);
  }

  // ---- The retirement the old device leaves behind ----

  /** The key the old device is registered under. */
  function OldInbox(c: Scheme, d: Disk, agora: Bytes32): Bytes32
    requires LoadSecret(d, agora, InboxKey).Ok?
  {
    c.inboxPublic(LoadSecret(d, agora, InboxKey).value)
  }

  /** What the old device's root signs to retire that key. */
  function Retirement(c: Scheme, d: Disk, agora: Bytes32, p: Parties): seq<byte>
    requires LoadSecret(d, agora, InboxKey).Ok?
  {
    c.sign(p.oldRoot, InboxCertMessage(c, agora, InboxAction.Retire.Tag(), OldInbox(c, d, agora)))
  }

  /** The witness the successor retires it with, from the handoff alone. */
  function RetireWitness(h: Handoff): InboxWitness {
    InboxWitness(h.rootPublicKey, h.rootOpening, h.credentialKey, h.retireCert)
  }

  lemma RetirementSigns(c: Scheme, d: Disk, agora: Bytes32, p: Parties)
    requires SignLaw(c) && CanSign(c, p) && LoadSecret(d, agora, InboxKey).Ok?
    ensures |Retirement(c, d, agora, p)| == 64
    ensures VerifySignature(c, OldKey(c, p), InboxCertMessage(c, agora, InboxAction.Retire.Tag(), OldInbox(c, d, agora)), Retirement(c, d, agora, p))
  {
    hide LoadSecret;
    var message := InboxCertMessage(c, agora, InboxAction.Retire.Tag(), OldInbox(c, d, agora));
    assert VerifySignature(c, PublicKey(c, p.oldRoot).value, message, c.sign(p.oldRoot, message));
  }

  /** What the handoff carries proves a retirement of the old leaf's key. */
  lemma RetirementProves(c: Scheme, d: Disk, agora: Bytes32, p: Parties, leaf: Bytes32)
    requires PointCodec(c) && SignLaw(c) && CanSign(c, p) && Holds(c, d, agora, p) && Certificate(c, agora, p).Ok?
    requires LeafOf(c, d, agora, p) == Some(leaf)
    ensures var h := Delivered(c, d, agora, p, Retirement(c, d, agora, p));
            InboxHolds(c, RetireWitness(h), InboxPublic(agora, leaf, OldInbox(c, d, agora), InboxAction.Retire))
  {
    hide LoadSecret, Certificate, PublicKey, Commit, VerifySignature, PointCodec, SignLaw, Retirement, OldInbox, InboxCertMessage;
    RetirementSigns(c, d, agora, p);
  }

  /** The retirement composes too. What the old device signed, carried as bytes and decoded, proves,
      and the operator takes it exactly when it lives and the old leaf is still registered under the
      old device's key; from then on nothing is delivered to the old leaf, and everyone else's
      delivery is as it was. */
  lemma RetirementAccepted(c: Scheme, s: State, d: Disk, p: Parties, outRoom: nat, leaf: Bytes32, other: Bytes32)
    requires PointCodec(c) && SignLaw(c) && CanSign(c, p) && Holds(c, d, s.agora, p)
    requires Authorized(c, d, s.agora, p, Ok(Retirement(c, d, s.agora, p)), outRoom).Ok?
    requires LeafOf(c, d, s.agora, p) == Some(leaf)
    ensures Decoded(Authorized(c, d, s.agora, p, Ok(Retirement(c, d, s.agora, p)), outRoom).value).Ok?
    ensures var h := Decoded(Authorized(c, d, s.agora, p, Ok(Retirement(c, d, s.agora, p)), outRoom).value).value;
            var inbox := OldInbox(c, d, s.agora);
            var proof := ProveInbox(c, RetireWitness(h), InboxPublic(s.agora, leaf, inbox, InboxAction.Retire));
            && proof.Ok?
            && var (s', answer) := InboxCertificate(c, s, leaf, inbox, InboxAction.Retire, proof.value);
            && (answer.Ok? <==> !s.dissolved && leaf in s.inboxes && s.inboxes[leaf].key == inbox)
            && (answer.Ok? ==> InboxLive(s', leaf) == None && (other != leaf ==> InboxLive(s', other) == InboxLive(s, other)))
  {
    hide Authorized, Decoded, Certificate, PublicKey, LoadSecret, LeafOf, PointCodec, SignLaw, Retirement, OldInbox, InboxHolds,
      InboxBinding;
    RetirementSigns(c, d, s.agora, p);
    HandoffArrives(c, d, s.agora, p, Retirement(c, d, s.agora, p), outRoom);
    RetirementProves(c, d, s.agora, p, leaf);
    var h := Delivered(c, d, s.agora, p, Retirement(c, d, s.agora, p));
    InboxStubIsHonest(c, RetireWitness(h), InboxPublic(s.agora, leaf, OldInbox(c, d, s.agora), InboxAction.Retire));
  }

  lemma LandedFits(c: Scheme, w: World, k: Bytes32)
    requires Primitives(c) && Sound(c, w) && k in w.s.classes
    ensures |w.s.classes[k].leaves| <= Pow2(c.depth)
  {
    hide Core, Covered, Growing, GroundOf;
    CoreLayout(c, w.s);
    ClassIn(c, w.s.classes, k);
    CapacityIsHalf(c);
  }
}
