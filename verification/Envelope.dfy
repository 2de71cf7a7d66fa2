/** The inbox key's derivations: what seals, finds and binds a boundary ciphertext. */
module Inboxes {
  import opened Wrappers
  import opened Bytes
  import opened Crypto
  import opened Framing

  function EpochContext(agora: Bytes32, epoch: nat): (b: seq<byte>)
    ensures |b| == 40
  {
    agora + U64Bytes(epoch)
  }

  /** The X25519 clamp (section 5 of RFC 7748), by the bits it fixes. */
  function MintInboxSecret(entropy: Bytes32): Bytes32 {
    var low := entropy[0] - entropy[0] % 8;
    var high := 64 + entropy[31] % 64;
    entropy[0 := low][31 := high]
  }

  function EphemeralSecret(c: Scheme, secret: Bytes32, agora: Bytes32, epoch: nat): Bytes32 {
    MintInboxSecret(c.kdf(InboxEphemeral, secret, EpochContext(agora, epoch)))
  }

  function BodyKeyOf(c: Scheme, secret: Bytes32, agora: Bytes32, epoch: nat): Bytes32 {
    c.kdf(BodyKey, secret, EpochContext(agora, epoch))
  }

  function TagKeyOf(c: Scheme, secret: Bytes32, agora: Bytes32, epoch: nat): Bytes32 {
    c.kdf(TagKey, secret, EpochContext(agora, epoch))
  }

  function FetchKeyOf(c: Scheme, secret: Bytes32, agora: Bytes32, epoch: nat): Bytes32 {
    c.kdf(FetchKey, secret, EpochContext(agora, epoch))
  }

  function SealContext(ephemeral: Bytes32, inbox: Bytes32, class_: Bytes32): seq<byte> {
    ephemeral + inbox + class_
  }

  function SealKey(c: Scheme, agreed: Bytes32, ephemeral: Bytes32, inbox: Bytes32, class_: Bytes32): Bytes32 {
    c.kdf(InboxSeal, agreed, SealContext(ephemeral, inbox, class_))
  }

  function LookupTag(c: Scheme, agreed: Bytes32, ephemeral: Bytes32, inbox: Bytes32, class_: Bytes32): (tag: seq<byte>)
    ensures |tag| == 8
  {
    c.kdf(InboxTag, agreed, SealContext(ephemeral, inbox, class_))[..8]
  }

  /** The associated data of every seal: whose boundary it is, and which. */
  function Associated(c: Scheme, agora: Bytes32, epoch: nat): Bytes32 {
    Digest(c, BulletinBody, [agora, U64Bytes(epoch)])
  }

  // ---- One key for one purpose ----

  /** One evaluation of the key derivation. */
  datatype Derivation = Derivation(domain: Domain, secret: Bytes32, info: seq<byte>)

  function Derived(c: Scheme, d: Derivation): Bytes32 {
    c.kdf(d.domain, d.secret, d.info)
  }

  predicate KeyClash(c: Scheme, a: Derivation, b: Derivation) {
    a != b && Derived(c, a) == Derived(c, b)
  }

  ghost predicate KeysDistinct(c: Scheme, q: set<Derivation>) {
    forall a, b {:trigger KeyClash(c, a, b)} :: a in q && b in q ==> !KeyClash(c, a, b)
  }

  lemma KeyNames(c: Scheme, q: set<Derivation>, a: Derivation, b: Derivation)
    requires KeysDistinct(c, q) && a in q && b in q && Derived(c, a) == Derived(c, b)
    ensures a == b
  {
    assert !KeyClash(c, a, b);
  }

  /** What the operator's key for a purpose, agora and epoch is derived from. */
  function EpochInput(purpose: Domain, secret: Bytes32, agora: Bytes32, epoch: nat): Derivation {
    Derivation(purpose, secret, agora + ToLE(epoch, 8))
  }

  lemma EpochInputNames(purpose: Domain, secret: Bytes32, agora: Bytes32, epoch: nat,
                        purpose': Domain, secret': Bytes32, agora': Bytes32, epoch': nat)
    requires epoch < U64 && epoch' < U64
    requires EpochInput(purpose, secret, agora, epoch) == EpochInput(purpose', secret', agora', epoch')
    ensures purpose == purpose' && secret == secret' && agora == agora' && epoch == epoch'
  {
    var a, b := agora + ToLE(epoch, 8), agora' + ToLE(epoch', 8);
    assert a[..32] == agora && b[..32] == agora' && a[32..] == ToLE(epoch, 8) && b[32..] == ToLE(epoch', 8);
    U64RoundTrip(epoch);
    U64RoundTrip(epoch');
  }

  /** The keys an operator hands out are of one epoch of one agora, and of one purpose: a body key is
      another epoch's or agora's only by a listed collision, and never a tag or a fetch key. */
  lemma EpochKeysName(c: Scheme, secret: Bytes32, agora: Bytes32, epoch: nat, agora': Bytes32, epoch': nat, q: set<Derivation>)
    requires epoch < U64 && epoch' < U64 && KeysDistinct(c, q)
    requires forall p :: p in {BodyKey, TagKey, FetchKey} ==> EpochInput(p, secret, agora, epoch) in q
    requires forall p :: p in {BodyKey, TagKey, FetchKey} ==> EpochInput(p, secret, agora', epoch') in q
    ensures BodyKeyOf(c, secret, agora, epoch) == BodyKeyOf(c, secret, agora', epoch') <==> agora == agora' && epoch == epoch'
    ensures TagKeyOf(c, secret, agora, epoch) == TagKeyOf(c, secret, agora', epoch') <==> agora == agora' && epoch == epoch'
    ensures FetchKeyOf(c, secret, agora, epoch) == FetchKeyOf(c, secret, agora', epoch') <==> agora == agora' && epoch == epoch'
    ensures BodyKeyOf(c, secret, agora, epoch) != TagKeyOf(c, secret, agora', epoch')
    ensures BodyKeyOf(c, secret, agora, epoch) != FetchKeyOf(c, secret, agora', epoch')
    ensures TagKeyOf(c, secret, agora, epoch) != FetchKeyOf(c, secret, agora', epoch')
  {
    hide KeysDistinct, EpochInput;
    EpochInputsAre(c, secret, agora, epoch);
    EpochInputsAre(c, secret, agora', epoch');
    forall p, p' | p in {BodyKey, TagKey, FetchKey} && p' in {BodyKey, TagKey, FetchKey}
      ensures Derived(c, EpochInput(p, secret, agora, epoch)) == Derived(c, EpochInput(p', secret, agora', epoch'))
         <==> p == p' && agora == agora' && epoch == epoch'
    {
      if Derived(c, EpochInput(p, secret, agora, epoch)) == Derived(c, EpochInput(p', secret, agora', epoch')) {
        KeyNames(c, q, EpochInput(p, secret, agora, epoch), EpochInput(p', secret, agora', epoch'));
        EpochInputNames(p, secret, agora, epoch, p', secret, agora', epoch');
      }
    }
  }

  lemma EpochInputsAre(c: Scheme, secret: Bytes32, agora: Bytes32, epoch: nat)
    ensures BodyKeyOf(c, secret, agora, epoch) == Derived(c, EpochInput(BodyKey, secret, agora, epoch))
    ensures TagKeyOf(c, secret, agora, epoch) == Derived(c, EpochInput(TagKey, secret, agora, epoch))
    ensures FetchKeyOf(c, secret, agora, epoch) == Derived(c, EpochInput(FetchKey, secret, agora, epoch))
    ensures EphemeralSecret(c, secret, agora, epoch) == MintInboxSecret(Derived(c, EpochInput(InboxEphemeral, secret, agora, epoch)))
  {
  }

  /** What a seal is bound to names its agora and epoch, up to a listed collision. */
  lemma AssociatedNames(c: Scheme, agora: Bytes32, epoch: nat, agora': Bytes32, epoch': nat, q: set<Query>)
    requires epoch < U64 && epoch' < U64 && ByteCollisionFree(c, q)
    requires Query(BulletinBody, [agora, ToLE(epoch, 8)]) in q && Query(BulletinBody, [agora', ToLE(epoch', 8)]) in q
    ensures Associated(c, agora, epoch) == Associated(c, agora', epoch') <==> agora == agora' && epoch == epoch'
  {
    hide ByteCollisionFree;
    var a, b := [agora, ToLE(epoch, 8)], [agora', ToLE(epoch', 8)];
    U64RoundTrip(epoch);
    U64RoundTrip(epoch');
    if Associated(c, agora, epoch) == Associated(c, agora', epoch') {
      DistinctParts(c, q, BulletinBody, a, BulletinBody, b);
      assert a[0] == b[0] && a[1] == b[1];
    }
  }

  /** Decrypts a sealed buffer, its tag appended. */
  function OpenSealed(c: Scheme, key: Bytes32, agora: Bytes32, epoch: nat, buffer: seq<byte>): Result<seq<byte>> {
    if |buffer| < SEAL_TAG_LEN then Err(Malformed)
    else match c.open(key, Associated(c, agora, epoch), buffer)
      case None => Err(Malformed)
      case Some(plain) => Ok(plain)
  }

  /** What is sealed opens, for the agora and epoch it was sealed for. */
  lemma SealedOpens(c: Scheme, key: Bytes32, agora: Bytes32, epoch: nat, plain: seq<byte>)
    requires SealLaw(c)
    ensures OpenSealed(c, key, agora, epoch, c.seal(key, Associated(c, agora, epoch), plain)) == Ok(plain)
  {
  }
}

/** The shared body: its canonical layout, written by the operator and read strictly by members. */
module Bodies {
  import opened Wrappers
  import opened Bytes
  import opened Crypto
  import opened Cursor
  import opened Inboxes

  datatype Body = Body(
    epoch: nat, classRoots: seq<(Bytes32, Bytes32)>, revocationRoot: Bytes32, spendRoot: Bytes32,
    revoked: seq<Bytes32>, spent: seq<Bytes32>, tagKey: Bytes32, fetchKey: Bytes32)

  /** Every list's bytes are addressable. */
  ghost predicate Fits(b: Body) {
    b.epoch < U64 && 64 * |b.classRoots| < U64 && 32 * |b.revoked| < U64 && 32 * |b.spent| < U64
  }

  function Encoded(b: Body): seq<byte> {
    U64Bytes(b.epoch) + U64Bytes(|b.classRoots|) + Joined(PairBytes(b.classRoots)) + b.revocationRoot + b.spendRoot
    + U64Bytes(|b.revoked|) + Joined(b.revoked) + U64Bytes(|b.spent|) + Joined(b.spent) + b.tagKey + b.fetchKey
  }

  /** The layout as a reader takes it apart. */
  function Fielded(v: View): seq<byte> {
    U64Bytes(v.epoch) + (U64Bytes(v.classes) + (v.classRoots + (v.revocationRoot + (v.spendRoot
      + (U64Bytes(v.revokedCount) + (v.revoked + (U64Bytes(v.spentCount) + (v.spent + (v.tagKey + (v.fetchKey + []))))))))))
  }

  /** A decrypted body: its lists as raw bytes, read entry by entry on demand. */
  datatype View = View(
    epoch: nat, classes: nat, classRoots: seq<byte>, revocationRoot: Bytes32, spendRoot: Bytes32,
    revokedCount: nat, revoked: seq<byte>, spentCount: nat, spent: seq<byte>, tagKey: Bytes32, fetchKey: Bytes32)

  ghost predicate ViewFits(v: View) {
    && v.epoch < U64 && v.classes < U64 && v.revokedCount < U64 && v.spentCount < U64
    && |v.classRoots| == v.classes * 64 < U64
    && |v.revoked| == v.revokedCount * 32 < U64
    && |v.spent| == v.spentCount * 32 < U64
  }

  function ParseRoots(bytes: seq<byte>): Result<Cut<(nat, nat, seq<byte>, Bytes32, Bytes32)>> {
    var epoch :- TakeU64(bytes);
    var classes :- TakeU64(epoch.rest);
    var roots :- TakeEntries(classes.rest, classes.value, 64);
    var revocation :- TakeDigest(roots.rest);
    var spend :- TakeDigest(revocation.rest);
    Ok(Cut((epoch.value, classes.value, roots.value, revocation.value, spend.value), spend.rest))
  }

  function ParseSets(bytes: seq<byte>): Result<Cut<(nat, seq<byte>, nat, seq<byte>)>> {
    var revokedCount :- TakeU64(bytes);
    var revoked :- TakeEntries(revokedCount.rest, revokedCount.value, 32);
    var spentCount :- TakeU64(revoked.rest);
    var spent :- TakeEntries(spentCount.rest, spentCount.value, 32);
    Ok(Cut((revokedCount.value, revoked.value, spentCount.value, spent.value), spent.rest))
  }

  function ParseKeys(bytes: seq<byte>): Result<(Bytes32, Bytes32)> {
    var tag :- TakeDigest(bytes);
    var fetch :- TakeDigest(tag.rest);
    if fetch.rest != [] then Err(Malformed) else Ok((tag.value, fetch.value))
  }

  /** The strict reading: exactly one canonical layout, for exactly this epoch. */
  function Parsed(bytes: seq<byte>, epoch: nat): Result<View> {
    var first :- TakeU64(bytes);
    if first.value != epoch then Err(Malformed)
    else
      var roots :- ParseRoots(bytes);
      var sets :- ParseSets(roots.rest);
      var keys :- ParseKeys(sets.rest);
      Ok(View(roots.value.0, roots.value.1, roots.value.2, roots.value.3, roots.value.4,
              sets.value.0, sets.value.1, sets.value.2, sets.value.3, keys.0, keys.1))
  }

  lemma RootsReencode(bytes: seq<byte>)
    requires ParseRoots(bytes).Ok?
    ensures var v, rest := ParseRoots(bytes).value.value, ParseRoots(bytes).value.rest;
            && bytes == U64Bytes(v.0) + (U64Bytes(v.1) + (v.2 + (v.3 + (v.4 + rest))))
            && v.0 < U64 && v.1 < U64 && |v.2| == v.1 * 64 < U64
  {
    var epoch := TakeU64(bytes).value;
    var classes := TakeU64(epoch.rest).value;
    var roots := TakeEntries(classes.rest, classes.value, 64).value;
    var revocation := TakeDigest(roots.rest).value;
    var spend := TakeDigest(revocation.rest).value;
    TakeU64Bounded(bytes);
    TakeU64Bounded(epoch.rest);
    TakeU64Exact(bytes, epoch.value, epoch.rest);
    TakeU64Exact(epoch.rest, classes.value, classes.rest);
    TakeEntriesExact(classes.rest, classes.value, 64, roots.value, roots.rest);
    TakeDigestExact(roots.rest, revocation.value, revocation.rest);
    TakeDigestExact(revocation.rest, spend.value, spend.rest);
  }

  lemma SetsReencode(bytes: seq<byte>)
    requires ParseSets(bytes).Ok?
    ensures var v, rest := ParseSets(bytes).value.value, ParseSets(bytes).value.rest;
            && bytes == U64Bytes(v.0) + (v.1 + (U64Bytes(v.2) + (v.3 + rest)))
            && v.0 < U64 && v.2 < U64 && |v.1| == v.0 * 32 < U64 && |v.3| == v.2 * 32 < U64
  {
    var revokedCount := TakeU64(bytes).value;
    var revoked := TakeEntries(revokedCount.rest, revokedCount.value, 32).value;
    var spentCount := TakeU64(revoked.rest).value;
    var spent := TakeEntries(spentCount.rest, spentCount.value, 32).value;
    TakeU64Bounded(bytes);
    TakeU64Bounded(revoked.rest);
    TakeU64Exact(bytes, revokedCount.value, revokedCount.rest);
    TakeEntriesExact(revokedCount.rest, revokedCount.value, 32, revoked.value, revoked.rest);
    TakeU64Exact(revoked.rest, spentCount.value, spentCount.rest);
    TakeEntriesExact(spentCount.rest, spentCount.value, 32, spent.value, spent.rest);
  }

  lemma KeysExact(bytes: seq<byte>, tag: Bytes32, fetch: Bytes32)
    ensures ParseKeys(bytes) == Ok((tag, fetch)) <==> bytes == tag + (fetch + [])
  {
    TakeDigestExact(bytes, tag, fetch + []);
    TakeDigestExact(fetch + [], fetch, []);
    if ParseKeys(bytes) == Ok((tag, fetch)) {
      var first := TakeDigest(bytes).value;
      TakeDigestExact(first.rest, fetch, []);
    }
  }

  /** Reading accepts exactly the canonical layouts for its epoch. */
  lemma ParsesExactlyLayouts(bytes: seq<byte>, epoch: nat, v: View)
    requires ViewFits(v)
    ensures Parsed(bytes, epoch) == Ok(v) <==> v.epoch == epoch && bytes == Fielded(v)
  {
    if Parsed(bytes, epoch) == Ok(v) {
      var roots := ParseRoots(bytes).value;
      var sets := ParseSets(roots.rest).value;
      RootsReencode(bytes);
      SetsReencode(roots.rest);
      KeysExact(sets.rest, v.tagKey, v.fetchKey);
    }
    if v.epoch == epoch && bytes == Fielded(v) {
      LayoutParses(v);
    }
  }

  lemma LayoutParses(v: View)
    requires ViewFits(v)
    ensures Parsed(Fielded(v), v.epoch) == Ok(v)
  {
    var keys := v.tagKey + (v.fetchKey + []);
    var spent := v.spent + keys;
    var sets := U64Bytes(v.revokedCount) + (v.revoked + (U64Bytes(v.spentCount) + spent));
    var revocation := v.revocationRoot + (v.spendRoot + sets);
    RootsParse(v, sets);
    SetsParse(v, keys);
    KeysExact(keys, v.tagKey, v.fetchKey);
    TakeU64Exact(Fielded(v), v.epoch, U64Bytes(v.classes) + (v.classRoots + revocation));
  }

  lemma RootsParse(v: View, rest: seq<byte>)
    requires ViewFits(v)
    ensures ParseRoots(U64Bytes(v.epoch) + (U64Bytes(v.classes) + (v.classRoots + (v.revocationRoot + (v.spendRoot + rest)))))
         == Ok(Cut((v.epoch, v.classes, v.classRoots, v.revocationRoot, v.spendRoot), rest))
  {
    var r3 := v.spendRoot + rest;
    var r2 := v.revocationRoot + r3;
    var r1 := v.classRoots + r2;
    var r0 := U64Bytes(v.classes) + r1;
    TakeU64Exact(U64Bytes(v.epoch) + r0, v.epoch, r0);
    TakeU64Exact(r0, v.classes, r1);
    TakeEntriesExact(r1, v.classes, 64, v.classRoots, r2);
    TakeDigestExact(r2, v.revocationRoot, r3);
    TakeDigestExact(r3, v.spendRoot, rest);
  }

  lemma SetsParse(v: View, rest: seq<byte>)
    requires ViewFits(v)
    ensures ParseSets(U64Bytes(v.revokedCount) + (v.revoked + (U64Bytes(v.spentCount) + (v.spent + rest))))
         == Ok(Cut((v.revokedCount, v.revoked, v.spentCount, v.spent), rest))
  {
    var r2 := v.spent + rest;
    var r1 := U64Bytes(v.spentCount) + r2;
    var r0 := v.revoked + r1;
    TakeU64Exact(U64Bytes(v.revokedCount) + r0, v.revokedCount, r0);
    TakeEntriesExact(r0, v.revokedCount, 32, v.revoked, r1);
    TakeU64Exact(r1, v.spentCount, r2);
    TakeEntriesExact(r2, v.spentCount, 32, v.spent, rest);
  }

  /** The view a body's encoding reads back as. */
  function ViewOf(b: Body): View {
    View(b.epoch, |b.classRoots|, Joined(PairBytes(b.classRoots)), b.revocationRoot, b.spendRoot,
         |b.revoked|, Joined(b.revoked), |b.spent|, Joined(b.spent), b.tagKey, b.fetchKey)
  }

  lemma EncodedFields(b: Body)
    ensures Encoded(b) == Fielded(ViewOf(b))
  {
    var v := ViewOf(b);
    var f := v.fetchKey + [];
    assert f == v.fetchKey;
    var tf := v.tagKey + f;
    var stf := v.spent + tf;
    var nstf := U64Bytes(v.spentCount) + stf;
    var rnstf := v.revoked + nstf;
    var sets := U64Bytes(v.revokedCount) + rnstf;
    var head := U64Bytes(v.epoch) + U64Bytes(v.classes) + v.classRoots + v.revocationRoot + v.spendRoot;
    Regroup(head + U64Bytes(v.revokedCount) + v.revoked + U64Bytes(v.spentCount) + v.spent, v.tagKey, f);
    Regroup(head + U64Bytes(v.revokedCount) + v.revoked + U64Bytes(v.spentCount), v.spent, tf);
    Regroup(head + U64Bytes(v.revokedCount) + v.revoked, U64Bytes(v.spentCount), stf);
    Regroup(head + U64Bytes(v.revokedCount), v.revoked, nstf);
    Regroup(head, U64Bytes(v.revokedCount), rnstf);
    HeadRegroups(v, sets);
  }

  lemma HeadRegroups(v: View, sets: seq<byte>)
    ensures U64Bytes(v.epoch) + U64Bytes(v.classes) + v.classRoots + v.revocationRoot + v.spendRoot + sets
         == U64Bytes(v.epoch) + (U64Bytes(v.classes) + (v.classRoots + (v.revocationRoot + (v.spendRoot + sets))))
  {
    Regroup(U64Bytes(v.epoch) + U64Bytes(v.classes) + v.classRoots + v.revocationRoot, v.spendRoot, sets);
    Regroup(U64Bytes(v.epoch) + U64Bytes(v.classes) + v.classRoots, v.revocationRoot, v.spendRoot + sets);
    Regroup(U64Bytes(v.epoch) + U64Bytes(v.classes), v.classRoots, v.revocationRoot + (v.spendRoot + sets));
    Regroup(U64Bytes(v.epoch), U64Bytes(v.classes), v.classRoots + (v.revocationRoot + (v.spendRoot + sets)));
  }

  /** A body written reads back field for field and entry for entry. */
  lemma BodyRoundTrip(b: Body)
    requires Fits(b)
    ensures Parsed(Encoded(b), b.epoch) == Ok(ViewOf(b))
    ensures Pairs(ViewOf(b).classRoots) == b.classRoots
    ensures Entries(ViewOf(b).revoked) == b.revoked && Entries(ViewOf(b).spent) == b.spent
  {
    EncodedFields(b);
    JoinedLength(PairBytes(b.classRoots), 64);
    JoinedLength(b.revoked, 32);
    JoinedLength(b.spent, 32);
    LayoutParses(ViewOf(b));
    PairsOfJoined(b.classRoots);
    EntriesOfJoined(b.revoked);
    EntriesOfJoined(b.spent);
  }

  /** The operator's writer: three loops over the lists, fields between them. */
  method Encode(b: Body) returns (out: seq<byte>)
    ensures out == Encoded(b)
  {
    out := U64Bytes(b.epoch) + U64Bytes(|b.classRoots|);
    ghost var start := out;
    for i := 0 to |b.classRoots|
      invariant out == start + Joined(PairBytes(b.classRoots)[..i])
    {
      JoinedGrows(PairBytes(b.classRoots)[..i], PairBytes(b.classRoots)[i]);
      assert PairBytes(b.classRoots)[..i + 1] == PairBytes(b.classRoots)[..i] + [PairBytes(b.classRoots)[i]];
      out := out + b.classRoots[i].0;
      out := out + b.classRoots[i].1;
    }
    assert PairBytes(b.classRoots)[..|b.classRoots|] == PairBytes(b.classRoots);
    out := out + b.revocationRoot + b.spendRoot + U64Bytes(|b.revoked|);
    out := AppendAll(out, b.revoked);
    out := out + U64Bytes(|b.spent|);
    out := AppendAll(out, b.spent);
    out := out + b.tagKey + b.fetchKey;
  }

  method AppendAll(before: seq<byte>, entries: seq<Bytes32>) returns (out: seq<byte>)
    ensures out == before + Joined(entries)
  {
    out := before;
    for i := 0 to |entries|
      invariant out == before + Joined(entries[..i])
    {
      JoinedGrows(entries[..i], entries[i]);
      assert entries[..i + 1] == entries[..i] + [entries[i]];
      out := out + entries[i];
    }
    assert entries[..|entries|] == entries;
  }

  /** A reading is of the one layout it is read from, and a refusal is of anything else. */
  lemma ParsesOnlyLayouts(bytes: seq<byte>, epoch: nat)
    ensures forall v :: Parsed(bytes, epoch) == Ok(v) <==> ViewFits(v) && v.epoch == epoch && bytes == Fielded(v)
    ensures Parsed(bytes, epoch).Err? ==> Parsed(bytes, epoch) == Err(Malformed)
  {
    hide Parsed, Fielded, ViewFits;
    if Parsed(bytes, epoch).Ok? {
      ParsedFits(bytes, epoch);
    }
    forall v ensures Parsed(bytes, epoch) == Ok(v) <==> ViewFits(v) && v.epoch == epoch && bytes == Fielded(v) {
      if ViewFits(v) {
        ParsesExactlyLayouts(bytes, epoch, v);
      }
    }
    RefusesMalformed(bytes, epoch);
  }

  lemma ParsedFits(bytes: seq<byte>, epoch: nat)
    requires Parsed(bytes, epoch).Ok?
    ensures ViewFits(Parsed(bytes, epoch).value)
  {
    RootsReencode(bytes);
    SetsReencode(ParseRoots(bytes).value.rest);
  }

  lemma RefusesMalformed(bytes: seq<byte>, epoch: nat)
    ensures Parsed(bytes, epoch).Err? ==> Parsed(bytes, epoch) == Err(Malformed)
  {
    hide LE;
  }

  /** The member's reader, a cursor over what remains: a body is read exactly from its own epoch's
      canonical layout, and everything else is refused. */
  method Parse(bytes: seq<byte>, epoch: nat) returns (r: Result<View>)
    ensures r == Parsed(bytes, epoch)
    ensures forall v :: r == Ok(v) <==> ViewFits(v) && v.epoch == epoch && bytes == Fielded(v)
    ensures r.Err? ==> r == Err(Malformed)
  {
    ParsesOnlyLayouts(bytes, epoch);
    var rest := bytes;
    var bodyEpoch :- TakeU64(rest);
    if bodyEpoch.value != epoch {
      return Err(Malformed);
    }
    rest := bodyEpoch.rest;
    var classes :- TakeU64(rest);
    rest := classes.rest;
    var classRoots :- TakeEntries(rest, classes.value, 64);
    rest := classRoots.rest;
    var revocationRoot :- TakeDigest(rest);
    rest := revocationRoot.rest;
    var spendRoot :- TakeDigest(rest);
    rest := spendRoot.rest;
    var revokedCount :- TakeU64(rest);
    rest := revokedCount.rest;
    var revoked :- TakeEntries(rest, revokedCount.value, 32);
    rest := revoked.rest;
    var spentCount :- TakeU64(rest);
    rest := spentCount.rest;
    var spent :- TakeEntries(rest, spentCount.value, 32);
    rest := spent.rest;
    var tagKey :- TakeDigest(rest);
    rest := tagKey.rest;
    var fetchKey :- TakeDigest(rest);
    rest := fetchKey.rest;
    if rest != [] {
      return Err(Malformed);
    }
    return Ok(View(bodyEpoch.value, classes.value, classRoots.value, revocationRoot.value, spendRoot.value,
                   revokedCount.value, revoked.value, spentCount.value, spent.value, tagKey.value, fetchKey.value));
  }

  /** The root of a class: that of the first entry naming it, if any does. */
  function ClassRootIn(pairs: seq<(Bytes32, Bytes32)>, class_: Bytes32): Option<Bytes32> {
    if |pairs| == 0 then None
    else if pairs[0].0 == class_ then Some(pairs[0].1)
    else ClassRootIn(pairs[1..], class_)
  }
}
