/** What a signature, a certificate and a derived value are for: one thing each. A value derived for
    one purpose is never one derived for another, and determines everything it was derived from, up
    to listed collisions. */
module Bindings {
  import opened Wrappers
  import opened Bytes
  import opened Crypto
  import opened Framing
  import opened Statements

  // ---- Signatures ----

  /** One signature equation's right-hand side: the nonce point, the key and the message it is for. */
  datatype Check = Check(nonce: Point, key: Point, message: F)

  /** `R + e*PK`, with `e` the hash of both points and the message reduced to a scalar. */
  function Checked(c: Scheme, x: Check): Point {
    c.add(x.nonce, c.mul(x.key, c.poseidon([x.nonce.u, x.nonce.v, x.key.u, x.key.v, x.message]) % c.order))
  }

  /** Two messages one nonce and key check alike. */
  predicate CheckClash(c: Scheme, a: Check, b: Check) {
    a.nonce == b.nonce && a.key == b.key && a.message != b.message && Checked(c, a) == Checked(c, b)
  }

  ghost predicate ChecksDistinct(c: Scheme, q: set<Check>) {
    forall a, b {:trigger CheckClash(c, a, b)} :: a in q && b in q ==> !CheckClash(c, a, b)
  }

  /** The equation a signature claims, if key and signature are well formed. */
  function CheckOf(c: Scheme, pk: seq<byte>, m: F, signature: seq<byte>): Option<Check> {
    if |pk| != 32 || |signature| != 64 || c.pointFrom(pk).None? || c.pointFrom(signature[..32]).None? then None
    else Some(Check(c.pointFrom(signature[..32]).value, c.pointFrom(pk).value, m))
  }

  /** A signature verifies exactly when key and nonce are points, the scalar is canonical, and the
      equation holds. */
  lemma VerifiesExactly(c: Scheme, pk: seq<byte>, m: F, signature: seq<byte>)
    ensures VerifySignature(c, pk, m, signature) <==>
              && CheckOf(c, pk, m, signature).Some?
              && LE(signature[32..]) < c.order
              && c.mulBase(LE(signature[32..])) == Checked(c, CheckOf(c, pk, m, signature).value)
  {
  }

  /** A signature verifies for one message. */
  lemma SignatureNames(c: Scheme, pk: seq<byte>, m: F, m': F, signature: seq<byte>, q: set<Check>)
    requires VerifySignature(c, pk, m, signature) && VerifySignature(c, pk, m', signature)
    requires CheckOf(c, pk, m, signature).Some? && CheckOf(c, pk, m', signature).Some?
    requires CheckOf(c, pk, m, signature).value in q && CheckOf(c, pk, m', signature).value in q && ChecksDistinct(c, q)
    ensures m == m'
  {
    hide Checked, VerifySignature, ChecksDistinct;
    VerifiesExactly(c, pk, m, signature);
    VerifiesExactly(c, pk, m', signature);
    var a, b := CheckOf(c, pk, m, signature).value, CheckOf(c, pk, m', signature).value;
    NoCheckClash(c, q, a, b);
  }

  lemma NoCheckClash(c: Scheme, q: set<Check>, a: Check, b: Check)
    requires ChecksDistinct(c, q) && a in q && b in q
    ensures !CheckClash(c, a, b)
  {
    hide CheckClash;
  }

  // ---- Derived values ----

  /** Everything hashed to one field element for a purpose of its own, as the field reads it. */
  datatype Derived =
    | LeafFrom(root: Point, key: F, opening: F, agora: F)
    | ActionFor(kind: F, key: F, context: F, agora: F)
    | EpochCertFor(agora: F, epoch: nat, epochKey: Point)
    | MigrationCertFor(agora: F, successor: Point)
    | SpendOf(key: F, leaf: F, agora: F)
    | RevocationOf(leaf: F)
    | InboxCertFor(agora: F, action: F, inbox: F)

  /** What is hashed for it: a number of its purpose's own, then everything it is derived from. */
  function Inputs(d: Derived): seq<F> {
    match d
    case LeafFrom(root, key, opening, agora) => [1, root.u, root.v, key, opening, agora]
    case ActionFor(kind, key, context, agora) => [3, kind, key, context, agora]
    case EpochCertFor(agora, epoch, epochKey) => [4, agora, epoch, epochKey.u, epochKey.v]
    case MigrationCertFor(agora, successor) => [5, agora, successor.u, successor.v]
    case SpendOf(key, leaf, agora) => [6, key, leaf, agora]
    case RevocationOf(leaf) => [8, leaf]
    case InboxCertFor(agora, action, inbox) => [9, agora, action, inbox]
  }

  function Output(c: Scheme, d: Derived): F {
    c.poseidon(Inputs(d))
  }

  lemma InputsName(d: Derived, e: Derived)
    requires Inputs(d) == Inputs(e)
    ensures d == e
  {
    var a, b := Inputs(d), Inputs(e);
    assert |a| == |b| && a[0] == b[0] && a[1] == b[1];
    if |a| > 2 {
      assert a[2] == b[2] && a[3] == b[3];
    }
    if |a| > 4 {
      assert a[4] == b[4];
    }
    if |a| > 5 {
      assert a[5] == b[5];
    }
  }

  /** A derived value names its purpose and everything it was derived from. */
  lemma OutputNames(c: Scheme, d: Derived, e: Derived, q: set<seq<F>>)
    requires CollisionFree(c, q) && Inputs(d) in q && Inputs(e) in q && Output(c, d) == Output(c, e)
    ensures d == e
  {
    hide Inputs, CollisionFree;
    Distinct(c, q, Inputs(d), Inputs(e));
    InputsName(d, e);
  }

  /** The same of the 32 bytes it travels as. */
  lemma BytesName(c: Scheme, d: Derived, e: Derived, q: set<seq<F>>)
    requires Primitives(c) && CollisionFree(c, q) && Inputs(d) in q && Inputs(e) in q
    requires ToBytes(Output(c, d)) == ToBytes(Output(c, e))
    ensures d == e
  {
    hide Inputs, CollisionFree, ToBytes;
    HashInField(c, Inputs(d));
    HashInField(c, Inputs(e));
    ToBytesInjective(Output(c, d), Output(c, e));
    OutputNames(c, d, e, q);
  }

  /** What a leaf is derived from, for bytes naming a root point. */
  function LeafOf(c: Scheme, pk: seq<byte>, key: Bytes32, opening: Bytes32, agora: Bytes32): Derived
    requires DecodePoint(c, pk).Some?
  {
    LeafFrom(DecodePoint(c, pk).value, LE(key) % R, LE(opening) % R, LE(agora) % SPAN254)
  }

  /** A leaf names its root key, credential key, opening and agora; a spend its key, leaf and agora;
      a revocation entry its leaf; and none of them is ever another. */
  lemma LeafNames(c: Scheme, pk: seq<byte>, key: Bytes32, opening: Bytes32, agora: Bytes32, leaf: Bytes32, d: Derived, q: set<seq<F>>)
    requires Primitives(c) && CollisionFree(c, q) && Inputs(d) in q
    ensures DecodePoint(c, pk).Some? && Inputs(LeafOf(c, pk, key, opening, agora)) in q ==>
              (Commit(c, pk, key, opening, agora) == Some(ToBytes(Output(c, d))) <==> d == LeafOf(c, pk, key, opening, agora))
    ensures Inputs(SpendOf(LE(key) % R, LE(leaf) % R, LE(agora) % SPAN254)) in q ==>
              (SpendNullifier(c, key, leaf, agora) == ToBytes(Output(c, d)) <==> d == SpendOf(LE(key) % R, LE(leaf) % R, LE(agora) % SPAN254))
    ensures Inputs(RevocationOf(LE(leaf) % R)) in q ==>
              (RevocationKey(c, leaf) == ToBytes(Output(c, d)) <==> d == RevocationOf(LE(leaf) % R))
  {
    hide CollisionFree, ToBytes;
    if DecodePoint(c, pk).Some? {
      var e := LeafOf(c, pk, key, opening, agora);
      assert Commit(c, pk, key, opening, agora) == Some(ToBytes(Output(c, e)));
      if Inputs(e) in q && ToBytes(Output(c, e)) == ToBytes(Output(c, d)) {
        BytesName(c, e, d, q);
      }
    }
    var spend := SpendOf(LE(key) % R, LE(leaf) % R, LE(agora) % SPAN254);
    assert SpendNullifier(c, key, leaf, agora) == ToBytes(Output(c, spend));
    if Inputs(spend) in q && ToBytes(Output(c, spend)) == ToBytes(Output(c, d)) {
      BytesName(c, spend, d, q);
    }
    var revoked := RevocationOf(LE(leaf) % R);
    assert RevocationKey(c, leaf) == ToBytes(Output(c, revoked));
    if Inputs(revoked) in q && ToBytes(Output(c, revoked)) == ToBytes(Output(c, d)) {
      BytesName(c, revoked, d, q);
    }
  }

  // ---- Certificates ----

  /** A root key's signature on one derived message. */
  predicate Certifies(c: Scheme, pk: seq<byte>, certificate: seq<byte>, d: Derived) {
    VerifySignature(c, pk, Output(c, d), certificate)
  }

  /** What each statement asks of the certificate in its witness, exactly: an epoch key is certified
      for its agora and epoch, a successor for its agora, an instruction for its agora, action and
      inbox; each under the root key in the opened leaf. */
  lemma CertificatesAsked(c: Scheme, w: ChainWitness, m: MigrationWitness, i: InboxWitness, agora: Bytes32, epoch: nat, p: InboxPublic)
    ensures EpochKeyCertified(c, w, agora, epoch) <==>
              && PublicKey(c, w.epochKey) == Some(w.epochPublicKey) && DecodePoint(c, w.epochPublicKey).Some?
              && Certifies(c, w.rootPublicKey, w.epochCert, EpochCertFor(LE(agora) % SPAN254, epoch, DecodePoint(c, w.epochPublicKey).value))
    ensures SuccessorAuthorized(c, m, agora) <==>
              && DecodePoint(c, m.successorPublicKey).Some?
              && Certifies(c, m.oldRootPublicKey, m.migrationCert, MigrationCertFor(LE(agora) % SPAN254, DecodePoint(c, m.successorPublicKey).value))
    ensures InboxHolds(c, i, p) <==>
              && Commit(c, i.rootPublicKey, i.credentialKey, i.rootOpening, p.agora) == Some(p.leaf)
              && Certifies(c, i.rootPublicKey, i.inboxCert,
                           InboxCertFor(LE(p.agora) % SPAN254, if p.action.Retire? then 0 else 1, LE(p.inbox) % SPAN254))
  {
    hide VerifySignature, PublicKey, Commit;
  }

  /** A certificate is for one thing: what one root key's signature certifies, it certifies for that
      agora, that epoch or action, and that key, and never as a certificate of another kind. */
  lemma CertificateNames(c: Scheme, pk: seq<byte>, certificate: seq<byte>, d: Derived, e: Derived, q: set<seq<F>>, checks: set<Check>)
    requires Certifies(c, pk, certificate, d) && Certifies(c, pk, certificate, e)
    requires Inputs(d) in q && Inputs(e) in q && CollisionFree(c, q)
    requires CheckOf(c, pk, Output(c, d), certificate).Some? && CheckOf(c, pk, Output(c, e), certificate).Some?
    requires CheckOf(c, pk, Output(c, d), certificate).value in checks && CheckOf(c, pk, Output(c, e), certificate).value in checks
    requires ChecksDistinct(c, checks)
    ensures d == e
  {
    hide VerifySignature, CheckOf, ChecksDistinct, CollisionFree, Inputs;
    SignatureNames(c, pk, Output(c, d), Output(c, e), certificate, checks);
    OutputNames(c, d, e, q);
  }

  // ---- Nullifiers ----

  /** The nullifier or pseudonym an action claims. */
  function Claimed(a: Action): Option<Bytes32> {
    match a
    case Authorship(_, claimed) => Some(claimed)
    case Vouch(_, claimed) => Some(claimed)
    case PolicyApproval(_, claimed) => Some(claimed)
    case LiveAuth(_, claimed) => Some(claimed)
    case VerificationAccess(_) => None
  }

  /** An identifier as a statement's context: its digest, reduced. */
  function ContextOf(c: Scheme, id: seq<byte>): F {
    LE(Digest(c, ActionContext, [id])) % SPAN254
  }

  /** What an action's claim is derived from: the epoch key for what an epoch is to be unlinkable
      across, the credential key for what a member may do once. */
  function ActionOf(c: Scheme, w: ChainWitness, agora: Bytes32, a: Action): Derived
    requires Claimed(a).Some?
  {
    match a
    case Authorship(hash, _) => ActionFor(0, LE(w.epochKey) % R, LE(hash) % SPAN254, LE(agora) % SPAN254)
    case Vouch(session, _) => ActionFor(1, LE(w.credentialKey) % R, ContextOf(c, session), LE(agora) % SPAN254)
    case PolicyApproval(proposal, _) => ActionFor(2, LE(w.credentialKey) % R, ContextOf(c, proposal), LE(agora) % SPAN254)
    case LiveAuth(context, _) => ActionFor(3, LE(w.epochKey) % R, LE(context) % SPAN254, LE(agora) % SPAN254)
  }

  lemma ClaimIs(c: Scheme, w: ChainWitness, agora: Bytes32, a: Action)
    ensures ActionDerived(c, w, agora, a) <==> (Claimed(a).Some? ==> Claimed(a) == Some(ToBytes(Output(c, ActionOf(c, w, agora, a)))))
  {
    hide ToBytes;
  }

  /** Two inputs whose digests the field reads alike. */
  predicate ReducedClash(c: Scheme, a: Query, b: Query) {
    a != b && LE(Digest(c, a.domain, a.parts)) % SPAN254 == LE(Digest(c, b.domain, b.parts)) % SPAN254
  }

  ghost predicate ReducedCollisionFree(c: Scheme, q: set<Query>) {
    forall a, b {:trigger ReducedClash(c, a, b)} :: a in q && b in q ==> !ReducedClash(c, a, b)
  }

  lemma ReducedNames(c: Scheme, q: set<Query>, a: Query, b: Query)
    requires ReducedCollisionFree(c, q) && a in q && b in q
    requires LE(Digest(c, a.domain, a.parts)) % SPAN254 == LE(Digest(c, b.domain, b.parts)) % SPAN254
    ensures a == b
  {
    assert !ReducedClash(c, a, b);
  }

  /** A nullifier is for one action: two statements that claim the same one are of the same kind, in
      the same agora and under the same key, as the field reads them; and two vouches are for the same
      session, two approvals for the same proposal. */
  lemma NullifierNames(c: Scheme, w: ChainWitness, agora: Bytes32, a: Action, w': ChainWitness, agora': Bytes32, a': Action,
                       q: set<seq<F>>, ids: set<Query>)
    requires Primitives(c) && ActionDerived(c, w, agora, a) && ActionDerived(c, w', agora', a')
    requires Claimed(a).Some? && Claimed(a) == Claimed(a')
    requires Inputs(ActionOf(c, w, agora, a)) in q && Inputs(ActionOf(c, w', agora', a')) in q && CollisionFree(c, q)
    ensures ActionOf(c, w, agora, a) == ActionOf(c, w', agora', a')
    ensures (a.Authorship? <==> a'.Authorship?) && (a.LiveAuth? <==> a'.LiveAuth?)
    ensures (a.Vouch? <==> a'.Vouch?) && (a.PolicyApproval? <==> a'.PolicyApproval?)
    ensures (a.Vouch? || a.PolicyApproval?) && ReducedCollisionFree(c, ids)
            && Query(ActionContext, [Subject(a)]) in ids && Query(ActionContext, [Subject(a')]) in ids
            ==> Subject(a) == Subject(a')
  {
    hide Inputs, CollisionFree, ToBytes, ActionDerived, ReducedCollisionFree;
    ClaimIs(c, w, agora, a);
    ClaimIs(c, w', agora', a');
    BytesName(c, ActionOf(c, w, agora, a), ActionOf(c, w', agora', a'), q);
    if (a.Vouch? || a.PolicyApproval?) && ReducedCollisionFree(c, ids)
       && Query(ActionContext, [Subject(a)]) in ids && Query(ActionContext, [Subject(a')]) in ids {
      ReducedNames(c, ids, Query(ActionContext, [Subject(a)]), Query(ActionContext, [Subject(a')]));
      assert [Subject(a)][0] == [Subject(a')][0];
    }
  }

  /** What a vouch or an approval is about. */
  function Subject(a: Action): seq<byte> {
    match a
    case Vouch(session, _) => session
    case PolicyApproval(proposal, _) => proposal
    case _ => []
  }
}
