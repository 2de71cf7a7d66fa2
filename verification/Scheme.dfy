/** The cryptographic primitives, uninterpreted, and every derivation made from them.
    Nothing is assumed of a primitive beyond the laws stated in `Lawful`. Soundness is never
    assumed either: it is stated relative to `CollisionFree`, over explicit finite sets of
    preimages that a verification and a tree construction actually hashed. */
module Crypto {
  import opened Wrappers
  import opened Bytes

  // The order of the BLS12-381 scalar field.
  const R: nat := 0x73ed_a753_299d_7d48_3339_d808_09a1_d805_53bd_a402_fffe_5bfe_ffff_ffff_0000_0001

  // 2^251, 2^253 and 2^254: signing-secret, ordering-domain and identifier widths.
  const SPAN251: nat := 0x800_0000_0000_0000_0000_0000_0000_0000_0000_0000_0000_0000_0000_0000_0000_0000
  const SPAN253: nat := 0x2000_0000_0000_0000_0000_0000_0000_0000_0000_0000_0000_0000_0000_0000_0000_0000
  const SPAN254: nat := 0x4000_0000_0000_0000_0000_0000_0000_0000_0000_0000_0000_0000_0000_0000_0000_0000

  /** A field element, by its canonical representative: everything decoded or hashed is
      `InField`. */
  type F = int

  predicate InField(x: F) {
    0 <= x < R
  }

  type pos = n: nat | n > 0 witness 1

  /** A prime-order subgroup point, by its affine coordinates. */
  datatype Point = Point(u: F, v: F)

  /** The primitives, as values. `depth` is the accumulators' depth and `order` the Jubjub
      group order. */
  datatype Scheme = Scheme(
    depth: nat,
    order: pos,
    poseidon: seq<F> -> F,
    digest: (Domain, seq<seq<byte>>) -> Bytes32,
    pointFrom: Bytes32 -> Option<Point>,
    pointTo: Point -> Bytes32,
    mulBase: nat -> Point,
    mul: (Point, nat) -> Point,
    add: (Point, Point) -> Point,
    sign: (Bytes32, F) -> seq<byte>,
    inboxPublic: Bytes32 -> Bytes32,
    agree: (Bytes32, Bytes32) -> Option<Bytes32>,
    kdf: (Domain, Bytes32, seq<byte>) -> Bytes32,
    seal: (Bytes32, seq<byte>, seq<byte>) -> seq<byte>,
    open: (Bytes32, seq<byte>, seq<byte>) -> Option<seq<byte>>)

  /** What the primitives are: depths the network instantiates, a group order between the
      minted-secret width and the field order, and hashes and coordinates in the field. */
  ghost predicate Primitives(c: Scheme) {
    match c
    case Scheme(depth, order, poseidon, _, pointFrom, _, _, _, _, _, _, _, _, _, _) =>
      && 0 < depth < 64
      && SPAN251 <= order < R
      && (forall xs {:trigger InField(poseidon(xs))} :: InField(poseidon(xs)))
      && (forall b: Bytes32 {:trigger pointFrom(b).value} ::
            pointFrom(b).Some? ==> InField(pointFrom(b).value.u) && InField(pointFrom(b).value.v))
  }

  function Poseidon(c: Scheme, xs: seq<F>): F {
    c.poseidon(xs)
  }

  lemma HashInField(c: Scheme, xs: seq<F>)
    requires Primitives(c)
    ensures InField(Poseidon(c, xs))
  {
    assert InField(c.poseidon(xs));
  }

  predicate Clash(c: Scheme, a: seq<F>, b: seq<F>) {
    a != b && Poseidon(c, a) == Poseidon(c, b)
  }

  predicate HitsEmpty(c: Scheme, a: seq<F>) {
    Poseidon(c, a) == 0
  }

  /** No two of these preimages collide and none of them hashes to the empty value. */
  ghost predicate CollisionFree(c: Scheme, q: set<seq<F>>) {
    && (forall a, b {:trigger Clash(c, a, b)} :: a in q && b in q ==> !Clash(c, a, b))
    && (forall a {:trigger HitsEmpty(c, a)} :: a in q ==> !HitsEmpty(c, a))
  }

  lemma Distinct(c: Scheme, q: set<seq<F>>, a: seq<F>, b: seq<F>)
    requires CollisionFree(c, q) && a in q && b in q
    requires Poseidon(c, a) == Poseidon(c, b)
    ensures a == b
  {
    assert !Clash(c, a, b);
  }

  lemma NonEmpty(c: Scheme, q: set<seq<F>>, a: seq<F>)
    requires CollisionFree(c, q) && a in q
    ensures Poseidon(c, a) != 0
  {
    assert !HitsEmpty(c, a);
  }

  // ---- The field crossing ----

  /** The canonical wire form of a field element. */
  function ToBytes(f: F): Bytes32 {
    ToLE(f % R, 32)
  }

  /** Total decoding of witness bytes: little-endian, reduced. */
  function Value(b: Bytes32): F {
    LE(b) % R
  }

  /** Strict decoding: the element a canonical string names. */
  function Decode(b: Bytes32): Option<F> {
    if LE(b) < R then Some(LE(b)) else None
  }

  /** A 32-byte identifier's field entry: bits 254 and 255 cleared. */
  function FromId(b: Bytes32): F {
    LE(b) % SPAN254
  }

  lemma ValueOfToBytes(f: F)
    requires InField(f)
    ensures LE(ToBytes(f)) == f
    ensures Value(ToBytes(f)) == f
    ensures Decode(ToBytes(f)) == Some(f)
  {
    Pow256Of32();
    assert f % R == f;
    LEToLE(f, 32);
  }

  lemma DecodedIsCanonical(b: Bytes32)
    requires Decode(b).Some?
    ensures Value(b) == Decode(b).value && ToBytes(Value(b)) == b
  {
    ToLELE(b);
  }

  lemma ToBytesInjective(a: F, b: F)
    requires InField(a) && InField(b) && ToBytes(a) == ToBytes(b)
    ensures a == b
  {
    ValueOfToBytes(a);
    ValueOfToBytes(b);
  }

  // ---- Length-framed byte hashing ----

  /** The hashing contexts the model uses; each has its own tag. */
  datatype Domain =
    | LiveAuthCommitment | LiveAuthContext | LiveAuthSas | Bulletin | EnvelopeCiphertexts | BulletinBody
    | ProposalPolicy | ProposalRevocation | ProposalDissolution | ProposalHorizon
    | TransparencyEntry | TransparencyHead | ActionContext | Armor
    | InboxEphemeral | BodyKey | InboxSeal | InboxTag | TagKey | FetchKey
    | StubChain | StubMigration | StubInbox
  {
    function Tag(): string {
      match this
      case LiveAuthCommitment => "nymora/v0/live-auth/commitment"
      case LiveAuthContext => "nymora/v0/live-auth/context"
      case LiveAuthSas => "nymora/v0/live-auth/sas"
      case Bulletin => "nymora/v0/bulletin"
      case EnvelopeCiphertexts => "nymora/v0/envelope/ciphertexts"
      case BulletinBody => "nymora/v0/envelope/body"
      case ProposalPolicy => "nymora/v0/proposal/policy"
      case ProposalRevocation => "nymora/v0/proposal/revocation"
      case ProposalDissolution => "nymora/v0/proposal/dissolution"
      case ProposalHorizon => "nymora/v0/proposal/horizon"
      case TransparencyEntry => "nymora/v0/transparency/entry"
      case TransparencyHead => "nymora/v0/transparency/head"
      case ActionContext => "nymora/v0/action-context"
      case Armor => "nymora/v0/armor"
      case InboxEphemeral => "nymora/v0/inbox/ephemeral"
      case BodyKey => "nymora/v0/envelope/key"
      case InboxSeal => "nymora/v0/inbox/seal"
      case InboxTag => "nymora/v0/inbox/tag"
      case TagKey => "nymora/v0/tag/key"
      case FetchKey => "nymora/v0/fetch/key"
      case StubChain => "stub-prover/v0/chain-binding"
      case StubMigration => "stub-prover/v0/migration-binding"
      case StubInbox => "stub-prover/v0/inbox-binding"
    }
  }

  /** The byte-family hash of a domain and the parts absorbed after it. The bytes it runs over
      are `Framing.Preimage`, which determines both. */
  function Digest(c: Scheme, d: Domain, parts: seq<seq<byte>>): Bytes32 {
    c.digest(d, parts)
  }

  function FromContextBytes(c: Scheme, identifier: seq<byte>): F {
    FromId(Digest(c, ActionContext, [identifier]))
  }

  // ---- Commitments, nullifiers, entries ----

  const LEAF: F := 1
  const GAP: F := 2
  const ACTION: F := 3
  const EPOCH_CERT: F := 4
  const MIGRATION_CERT: F := 5
  const SPEND: F := 6
  const REVOKE: F := 8
  const INBOX_CERT: F := 9

  const AUTHORSHIP: F := 0
  const VOUCH: F := 1
  const POLICY: F := 2
  const LIVE_AUTH: F := 3
  const VERIFICATION: F := 4

  function DecodePoint(c: Scheme, b: seq<byte>): Option<Point> {
    if |b| == 32 then c.pointFrom(b) else None
  }

  /** What a credential's leaf hashes. */
  function LeafPreimage(p: Point, key: F, opening: F, agora: F): seq<F> {
    [LEAF, p.u, p.v, key, opening, agora]
  }

  /** The leaf `Commit(pk_root, sk_cred, r_root, agora_id)`; none for bytes naming no point. */
  function Commit(c: Scheme, pk: seq<byte>, key: Bytes32, opening: Bytes32, agora: Bytes32): Option<Bytes32> {
    match DecodePoint(c, pk)
    case None => None
    case Some(p) => Some(ToBytes(Poseidon(c, LeafPreimage(p, Value(key), Value(opening), FromId(agora)))))
  }

  function ActionOutput(c: Scheme, tag: F, key: F, context: F, agora: F): F {
    Poseidon(c, [ACTION, tag, key, context, agora])
  }

  function ActionNullifier(c: Scheme, tag: F, key: Bytes32, context: F, agora: Bytes32): Bytes32 {
    ToBytes(ActionOutput(c, tag, Value(key), context, FromId(agora)))
  }

  /** `Hash(sk_cred, leaf, agora_id)`: the spend that consumes a leaf. */
  function SpendNullifier(c: Scheme, key: Bytes32, leaf: Bytes32, agora: Bytes32): Bytes32 {
    ToBytes(Poseidon(c, [SPEND, Value(key), Value(leaf), FromId(agora)]))
  }

  /** The revocation-set entry of a leaf. */
  function RevocationKey(c: Scheme, leaf: Bytes32): Bytes32 {
    ToBytes(Poseidon(c, [REVOKE, Value(leaf)]))
  }

  // ---- The signature scheme ----

  function ReduceScalar(c: Scheme, f: F): nat {
    f % c.order
  }

  function Challenge(c: Scheme, r: Point, pk: Point, message: F): F {
    Poseidon(c, [r.u, r.v, pk.u, pk.v, message])
  }

  /** The verification equation `S*G == R + e*PK`. */
  predicate Equation(c: Scheme, r: Point, s: nat, pk: Point, message: F) {
    c.mulBase(s) == c.add(r, c.mul(pk, ReduceScalar(c, Challenge(c, r, pk, message))))
  }

  /** A canonical scalar's bytes, or none. */
  function DecodeScalar(c: Scheme, b: Bytes32): Option<nat> {
    if LE(b) < c.order then Some(LE(b)) else None
  }

  function PublicKey(c: Scheme, sk: Bytes32): Option<Bytes32> {
    match DecodeScalar(c, sk)
    case None => None
    case Some(s) => Some(c.pointTo(c.mulBase(s)))
  }

  predicate VerifySignature(c: Scheme, pk: seq<byte>, message: F, signature: seq<byte>) {
    && DecodePoint(c, pk).Some?
    && |signature| == 64
    && DecodePoint(c, signature[..32]).Some?
    && DecodeScalar(c, signature[32..]).Some?
    && Equation(c, DecodePoint(c, signature[..32]).value, DecodeScalar(c, signature[32..]).value,
                DecodePoint(c, pk).value, message)
  }

  /** An epoch secret or certificate seed minted canonical: the top five bits cleared. */
  function MintSigningSecret(entropy: Bytes32): Bytes32 {
    entropy[31 := entropy[31] % 8]
  }

  /** A field secret minted canonical: the top two bits cleared. */
  function MintSecret(entropy: Bytes32): Bytes32 {
    entropy[31 := entropy[31] % 64]
  }

  function EpochCertMessage(c: Scheme, agora: Bytes32, epoch: nat, pk: seq<byte>): Option<F> {
    match DecodePoint(c, pk)
    case None => None
    case Some(p) => Some(Poseidon(c, [EPOCH_CERT, FromId(agora), epoch, p.u, p.v]))
  }

  function MigrationCertMessage(c: Scheme, agora: Bytes32, pk: seq<byte>): Option<F> {
    match DecodePoint(c, pk)
    case None => None
    case Some(p) => Some(Poseidon(c, [MIGRATION_CERT, FromId(agora), p.u, p.v]))
  }

  function InboxCertMessage(c: Scheme, agora: Bytes32, action: F, inbox: Bytes32): F {
    Poseidon(c, [INBOX_CERT, FromId(agora), action, FromId(inbox)])
  }

  // ---- The only laws any theorem may call on ----

  /** A decoded point re-encodes to the bytes it came from, and every multiple of the
      generator survives encoding. */
  ghost predicate PointCodec(c: Scheme) {
    && (forall b: Bytes32 :: c.pointFrom(b).Some? ==> c.pointTo(c.pointFrom(b).value) == b)
    && (forall s: nat :: c.pointFrom(c.pointTo(c.mulBase(s))) == Some(c.mulBase(s)))
  }

  const SEAL_TAG_LEN := 16

  /** Sealing appends one authentication tag, and opening undoes it under the same key and
      associated data. */
  ghost predicate SealLaw(c: Scheme) {
    forall k: Bytes32, ad: seq<byte>, plain: seq<byte> ::
      && |c.seal(k, ad, plain)| == |plain| + SEAL_TAG_LEN
      && c.open(k, ad, c.seal(k, ad, plain)) == Some(plain)
  }

  /** Both sides of an agreement reach the same secret. */
  ghost predicate AgreementLaw(c: Scheme) {
    forall a: Bytes32, b: Bytes32 :: c.agree(a, c.inboxPublic(b)) == c.agree(b, c.inboxPublic(a))
  }

  /** What a canonical secret signs verifies under its public key. */
  ghost predicate SignLaw(c: Scheme) {
    forall sk: Bytes32, m: F :: PublicKey(c, sk).Some? ==> VerifySignature(c, PublicKey(c, sk).value, m, c.sign(sk, m))
  }

  ghost predicate Lawful(c: Scheme) {
    PointCodec(c) && SealLaw(c) && AgreementLaw(c) && SignLaw(c)
  }
}
