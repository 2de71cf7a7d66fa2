/** The boundary envelope: what the operator broadcasts, and what each member makes of it. */
module Bulletins {
  import opened Wrappers
  import opened Bytes
  import opened Crypto
  import opened Merkle
  import opened BatchTree
  import opened Ascending
  import opened Exclusion
  import opened Cursor
  import opened Framing
  import opened Inboxes
  import opened Operator
  import opened OperatorLayout
  import opened OperatorRuns
  import opened OperatorLog
  import opened OperatorSafety
  import opened OperatorMembership
  import opened Log
  import Bodies

  /** One member's ciphertext: the tag it is found by, and the sealed bytes. */
  datatype Ciphertext = Ciphertext(tag: seq<byte>, bytes: seq<byte>)

  datatype Envelope = Envelope(
    epoch: nat, ephemeralKey: Bytes32, body: seq<byte>, ciphertexts: seq<Ciphertext>,
    head: Option<SignedHead>, signature: seq<byte>)

  // ---- What the signature covers ----

  /** The count, then each tag and ciphertext, in envelope order. */
  function ListParts(list: seq<Ciphertext>): (parts: seq<seq<byte>>)
    ensures |parts| == 2 * |list|
  {
    if |list| == 0 then [] else ListParts(list[..|list| - 1]) + [list[|list| - 1].tag, list[|list| - 1].bytes]
  }

  function CountedParts(list: seq<Ciphertext>): seq<seq<byte>> {
    [U64Bytes(|list|)] + ListParts(list)
  }

  function CiphertextsDigest(c: Scheme, list: seq<Ciphertext>): Bytes32 {
    Digest(c, EnvelopeCiphertexts, CountedParts(list))
  }

  function HeadParts(head: Option<SignedHead>): seq<seq<byte>> {
    match head
    case None => [[0]]
    case Some(h) => [[1], U64Bytes(h.sequence), h.head, h.signature]
  }

  function StatementParts(agora: Bytes32, epoch: nat, ephemeral: Bytes32, body: seq<byte>, list: Bytes32,
                          head: Option<SignedHead>): seq<seq<byte>>
  {
    [agora, U64Bytes(epoch), ephemeral, body, list] + HeadParts(head)
  }

  function StatementDigest(c: Scheme, agora: Bytes32, e: Envelope): Bytes32 {
    Digest(c, Bulletin, StatementParts(agora, e.epoch, e.ephemeralKey, e.body, CiphertextsDigest(c, e.ciphertexts), e.head))
  }

  // ---- The operator's side ----

  function BodyOf(c: Scheme, s: State): Bodies.Body
    requires s.epoch in s.history
  {
    var snap := s.history[s.epoch];
    Bodies.Body(s.epoch, RootPairs(snap.classRoots, InOrder(snap.classRoots.Keys)), snap.revocation, snap.spend,
                KeyList(s.revocations), KeyList(s.spends),
                TagKeyOf(c, s.tagSecret, s.agora, s.epoch), FetchKeyOf(c, s.tagSecret, s.agora, s.epoch))
  }

  function RootPairs(roots: map<Bytes32, Bytes32>, ids: seq<Bytes32>): (pairs: seq<(Bytes32, Bytes32)>) {
    if |ids| == 0 then []
    else RootPairs(roots, ids[..|ids| - 1]) + (if ids[|ids| - 1] in roots then [(ids[|ids| - 1], roots[ids[|ids| - 1]])] else [])
  }

  /** The landed leaves with their positions, ascending. */
  function ByPosition(cs: ClassState): (slots: seq<(nat, Bytes32)>)
    ensures |slots| == cs.occupied
  {
    seq(cs.occupied, i requires 0 <= i < cs.occupied => (2 * i, if 2 * i < |cs.leaves| then cs.leaves[2 * i] else PAD))
  }

  /** What one member's ciphertext seals: the body key, their position, and their path below the
      tree's occupied height. */
  function OwnPlain(bodyKey: Bytes32, position: nat, path: seq<Bytes32>): seq<byte> {
    bodyKey + U64Bytes(position) + [|path| % 256] + Joined(path)
  }

  function TruncatedPath(c: Scheme, leaves: seq<Bytes32>, position: nat): seq<Bytes32> {
    var path := PathBytes(c, leaves, position);
    if OccupiedHeight(|leaves|) <= |path| then path[..OccupiedHeight(|leaves|)] else path
  }

  /** The operator's agreement secret for this boundary. */
  function Ephemeral(c: Scheme, s: State): Bytes32 {
    EphemeralSecret(c, s.tagSecret, s.agora, s.epoch)
  }

  /** The ciphertext for one landed leaf of one class: none for a revoked, unregistered or
      lapsed registration, and none where the agreement fails. */
  function CiphertextFor(c: Scheme, s: State, k: Bytes32, leaves: seq<Bytes32>, slot: (nat, Bytes32)): Option<Ciphertext> {
    match InboxLive(s, slot.1)
    case None => None
    case Some(inbox) =>
      match c.agree(Ephemeral(c, s), inbox)
      case None => None
      case Some(agreed) =>
        if slot.0 >= |leaves| then None
        else
          var ephemeralKey := c.inboxPublic(Ephemeral(c, s));
          var plain := OwnPlain(BodyKeyOf(c, s.tagSecret, s.agora, s.epoch), slot.0, TruncatedPath(c, leaves, slot.0));
          Some(Ciphertext(
            LookupTag(c, agreed, ephemeralKey, inbox, k),
            c.seal(SealKey(c, agreed, ephemeralKey, inbox, k), Associated(c, s.agora, s.epoch), plain)))
  }

  /** The key a leaf's ciphertexts are sealed to now, if any: its live registration, if that agrees. */
  function DeliveryKey(c: Scheme, s: State, leaf: Bytes32): (key: Option<Bytes32>)
    ensures key.Some? ==> c.agree(Ephemeral(c, s), key.value).Some?
  {
    match InboxLive(s, leaf)
    case None => None
    case Some(inbox) => if c.agree(Ephemeral(c, s), inbox).Some? then Some(inbox) else None
  }

  /** What one ciphertext is, given the key it is sealed to. */
  function CiphertextTo(c: Scheme, s: State, k: Bytes32, leaves: seq<Bytes32>, position: nat, inbox: Bytes32): Ciphertext
    requires c.agree(Ephemeral(c, s), inbox).Some?
  {
    var agreed := c.agree(Ephemeral(c, s), inbox).value;
    var ephemeralKey := c.inboxPublic(Ephemeral(c, s));
    Ciphertext(
      LookupTag(c, agreed, ephemeralKey, inbox, k),
      c.seal(SealKey(c, agreed, ephemeralKey, inbox, k), Associated(c, s.agora, s.epoch),
             OwnPlain(BodyKeyOf(c, s.tagSecret, s.agora, s.epoch), position, TruncatedPath(c, leaves, position))))
  }

  lemma CiphertextIs(c: Scheme, s: State, k: Bytes32, leaves: seq<Bytes32>, slot: (nat, Bytes32))
    requires slot.0 < |leaves|
    ensures CiphertextFor(c, s, k, leaves, slot)
         == match DeliveryKey(c, s, slot.1) case None => None case Some(inbox) => Some(CiphertextTo(c, s, k, leaves, slot.0, inbox))
  {
    hide TruncatedPath, OwnPlain, SealKey, LookupTag, Associated, BodyKeyOf, EphemeralSecret, InboxLive;
  }

  function Sent(c: Scheme, s: State, k: Bytes32, leaves: seq<Bytes32>, slots: seq<(nat, Bytes32)>): seq<Ciphertext> {
    if |slots| == 0 then []
    else
      var last := CiphertextFor(c, s, k, leaves, slots[|slots| - 1]);
      Sent(c, s, k, leaves, slots[..|slots| - 1]) + (if last.Some? then [last.value] else [])
  }

  /** Every class in order, every landed leaf in position order. */
  function SentTo(c: Scheme, s: State, ids: seq<Bytes32>): seq<Ciphertext> {
    if |ids| == 0 then []
    else
      var k := ids[|ids| - 1];
      SentTo(c, s, ids[..|ids| - 1])
      + (if k in s.classes then Sent(c, s, k, s.classes[k].leaves, ByPosition(s.classes[k])) else [])
  }

  function LatestHead(s: State): Option<SignedHead> {
    if s.log.None? || |s.log.value.heads| == 0 then None else Some(s.log.value.heads[|s.log.value.heads| - 1])
  }

  /** The current epoch's envelope, signed. */
  function EnvelopeOf(c: Scheme, s: State): Envelope
    requires s.epoch in s.history
  {
    var unsigned := Envelope(
      s.epoch, c.inboxPublic(Ephemeral(c, s)),
      c.seal(BodyKeyOf(c, s.tagSecret, s.agora, s.epoch), Associated(c, s.agora, s.epoch), Bodies.Encoded(BodyOf(c, s))),
      SentTo(c, s, InOrder(s.classes.Keys)), LatestHead(s), []);
    unsigned.(signature := c.sign(s.statementSeed, FromId(StatementDigest(c, s.agora, unsigned))))
  }

  // ---- The member's side ----

  /** Signature under the pinned key, and an epoch strictly past the member's own. */
  function AcceptEnvelope(c: Scheme, statementKey: seq<byte>, agora: Bytes32, e: Envelope, current: Option<nat>): Result<()> {
    if current.Some? && e.epoch <= current.value then Err(Malformed)
    else if !VerifySignature(c, statementKey, FromId(StatementDigest(c, agora, e)), e.signature) then Err(Malformed)
    else Ok(())
  }

  predicate EnvelopeEquivocation(c: Scheme, statementKey: seq<byte>, agora: Bytes32, a: Envelope, b: Envelope) {
    && a.epoch == b.epoch
    && StatementDigest(c, agora, a) != StatementDigest(c, agora, b)
    && VerifySignature(c, statementKey, FromId(StatementDigest(c, agora, a)), a.signature)
    && VerifySignature(c, statementKey, FromId(StatementDigest(c, agora, b)), b.signature)
  }

  function OwnLookupTag(c: Scheme, secret: Bytes32, ephemeral: Bytes32, class_: Bytes32): Option<seq<byte>> {
    match c.agree(secret, ephemeral)
    case None => None
    case Some(agreed) => Some(LookupTag(c, agreed, ephemeral, c.inboxPublic(secret), class_))
  }

  /** The first ciphertext under a tag. */
  function Lookup(list: seq<Ciphertext>, tag: seq<byte>): Option<Ciphertext> {
    if |list| == 0 then None else if list[0].tag == tag then Some(list[0]) else Lookup(list[1..], tag)
  }

  datatype Own = Own(bodyKey: Bytes32, position: nat, path: seq<byte>)

  function SplitOwn(plain: seq<byte>): Result<Own> {
    if |plain| < 41 then Err(Malformed)
    else if |plain[41..]| != (plain[40] as int) * 32 then Err(Malformed)
    else Ok(Own(plain[..32], LE(plain[32..40]), plain[41..]))
  }

  function OpenOwn(c: Scheme, secret: Bytes32, ephemeral: Bytes32, agora: Bytes32, epoch: nat, class_: Bytes32,
                   buffer: seq<byte>): Result<Own>
  {
    match c.agree(secret, ephemeral)
    case None => Err(Malformed)
    case Some(agreed) =>
      var plain :- OpenSealed(c, SealKey(c, agreed, ephemeral, c.inboxPublic(secret), class_), agora, epoch, buffer);
      SplitOwn(plain)
  }

  function OpenBody(c: Scheme, bodyKey: Bytes32, agora: Bytes32, epoch: nat, buffer: seq<byte>): Result<Bodies.View> {
    var plain :- OpenSealed(c, bodyKey, agora, epoch, buffer);
    Bodies.Parsed(plain, epoch)
  }

  // ---- Order ----

  lemma ReversedTwice(b: Bytes32)
    ensures Reversed(Reversed(b)) == b
  {
  }

  lemma RankNames(id: Bytes32)
    ensures Reversed(ToLE(Rank(id), 32)) == id
  {
    ToLELE(Reversed(id));
    ReversedTwice(id);
  }

  /** The order lists every identifier. */
  lemma InOrderHas(ids: set<Bytes32>, id: Bytes32)
    requires id in ids
    ensures id in InOrder(ids)
  {
    var ranks := Sorted(set x | x in ids :: Rank(x));
    assert Rank(id) in ranks;
    var i :| 0 <= i < |ranks| && ranks[i] == Rank(id);
    RankNames(id);
    assert InOrder(ids)[i] == id;
  }

  // ---- Delivery ----

  lemma {:induction false} SentHas(c: Scheme, s: State, k: Bytes32, leaves: seq<Bytes32>, slots: seq<(nat, Bytes32)>, i: nat)
    requires i < |slots| && CiphertextFor(c, s, k, leaves, slots[i]).Some?
    ensures CiphertextFor(c, s, k, leaves, slots[i]).value in Sent(c, s, k, leaves, slots)
  {
    hide CiphertextFor;
    if i < |slots| - 1 {
      SentHas(c, s, k, leaves, slots[..|slots| - 1], i);
    }
  }

  lemma {:induction false} SentToHas(c: Scheme, s: State, ids: seq<Bytes32>, k: Bytes32, x: Ciphertext)
    requires k in ids && k in s.classes && x in Sent(c, s, k, s.classes[k].leaves, ByPosition(s.classes[k]))
    ensures x in SentTo(c, s, ids)
  {
    hide Sent, ByPosition;
    if ids[|ids| - 1] != k {
      SentToHas(c, s, ids[..|ids| - 1], k, x);
    }
  }

  /** A ciphertext is a landed leaf's own, for its place in its class, under a live registration. */
  ghost predicate Addressed(c: Scheme, s: State, x: Ciphertext, k: Bytes32, leaf: Bytes32) {
    && k in s.classes && leaf in s.classes[k].positions
    && InboxLive(s, leaf).Some?
    && CiphertextFor(c, s, k, s.classes[k].leaves, (s.classes[k].positions[leaf], leaf)) == Some(x)
  }

  lemma {:induction false} SentOnly(c: Scheme, s: State, k: Bytes32, leaves: seq<Bytes32>, slots: seq<(nat, Bytes32)>, x: Ciphertext)
    requires x in Sent(c, s, k, leaves, slots)
    ensures exists i :: 0 <= i < |slots| && CiphertextFor(c, s, k, leaves, slots[i]) == Some(x)
  {
    hide CiphertextFor;
    if CiphertextFor(c, s, k, leaves, slots[|slots| - 1]) != Some(x) {
      SentOnly(c, s, k, leaves, slots[..|slots| - 1], x);
    }
  }

  /** A class's slots are its landed leaves at their positions. */
  lemma SlotIsLanded(c: Scheme, cs: ClassState, i: nat)
    requires ClassOk(c, cs) && i < cs.occupied
    ensures ByPosition(cs)[i].1 in cs.positions && ByPosition(cs)[i] == (cs.positions[ByPosition(cs)[i].1], ByPosition(cs)[i].1)
    ensures cs.positions[ByPosition(cs)[i].1] == 2 * i
  {
  }

  lemma SentIsAddressed(c: Scheme, s: State, k: Bytes32, x: Ciphertext)
    requires k in s.classes && ClassOk(c, s.classes[k])
    requires x in Sent(c, s, k, s.classes[k].leaves, ByPosition(s.classes[k]))
    ensures exists leaf :: Addressed(c, s, x, k, leaf)
  {
    hide Sent, ByPosition, ClassOk, TruncatedPath, OwnPlain, SealKey, LookupTag, Associated, BodyKeyOf, EphemeralSecret;
    var slots := ByPosition(s.classes[k]);
    SentOnly(c, s, k, s.classes[k].leaves, slots, x);
    var i :| 0 <= i < |slots| && CiphertextFor(c, s, k, s.classes[k].leaves, slots[i]) == Some(x);
    SlotIsLanded(c, s.classes[k], i);
    assert Addressed(c, s, x, k, slots[i].1);
  }

  /** An envelope addresses live registrations of landed leaves only: so no revoked leaf ever has a
      ciphertext. */
  lemma {:induction false} SentToOnly(c: Scheme, s: State, ids: seq<Bytes32>, x: Ciphertext)
    requires ClassesOk(c, s.classes) && x in SentTo(c, s, ids)
    ensures exists k, leaf :: Addressed(c, s, x, k, leaf) && leaf !in s.revokedLeaves
  {
    hide CiphertextFor, Sent, ClassesOk, ClassOk, ByPosition;
    var k := ids[|ids| - 1];
    if k in s.classes && x in Sent(c, s, k, s.classes[k].leaves, ByPosition(s.classes[k])) {
      ClassIn(c, s.classes, k);
      SentIsAddressed(c, s, k, x);
      var leaf :| Addressed(c, s, x, k, leaf);
      assert Addressed(c, s, x, k, leaf) && leaf !in s.revokedLeaves;
    } else {
      SentToOnly(c, s, ids[..|ids| - 1], x);
    }
  }

  /** In every run each ciphertext of the current envelope is some landed, unrevoked leaf's own. */
  lemma EnvelopeAddressesMembers(c: Scheme, w: World, x: Ciphertext)
    requires Primitives(c) && Reachable(c, w) && w.s.epoch in w.s.history && x in EnvelopeOf(c, w.s).ciphertexts
    ensures exists k, leaf :: Addressed(c, w.s, x, k, leaf) && leaf !in w.s.revokedLeaves
  {
    hide Reachable, Core, Covered, Growing, GroundOf, ClassesOk, StagedOk, SentTo, InOrder, Addressed, BodyOf, StatementDigest, Bodies.Encoded;
    ReachableIsSound(c, w);
    CoreLayout(c, w.s);
    SentToOnly(c, w.s, InOrder(w.s.classes.Keys), x);
  }

  lemma Pow2Fits(n: nat)
    requires n < 64
    ensures Pow2(n) < U64
  {
    Pow2Monotone(n, 63);
    Pow2At63();
  }

  lemma {:induction false} Pow2Monotone(a: nat, b: nat)
    requires a <= b
    ensures Pow2(a) <= Pow2(b)
  {
    if a < b {
      Pow2Monotone(a, b - 1);
    }
  }

  lemma Pow2At63()
    ensures Pow2(63) == 0x8000_0000_0000_0000
  {
    Pow2Add(32, 31);
    Pow2Add(16, 16);
    Pow2Add(16, 15);
    assert Pow2(16) == 0x1_0000 && Pow2(15) == 0x8000;
  }

  lemma {:induction false} Pow2Add(a: nat, b: nat)
    ensures Pow2(a + b) == Pow2(a) * Pow2(b)
  {
    if b > 0 {
      Pow2Add(a, b - 1);
      assert Pow2(a) * (2 * Pow2(b - 1)) == 2 * (Pow2(a) * Pow2(b - 1));
    }
  }

  lemma SplitParts(bodyKey: Bytes32, position: seq<byte>, height: byte, path: seq<byte>)
    requires |position| == 8 && |path| == (height as int) * 32
    ensures SplitOwn(bodyKey + position + [height] + path) == Ok(Own(bodyKey, LE(position), path))
  {
    hide LE;
    var plain := bodyKey + position + [height] + path;
    assert plain[..32] == bodyKey && plain[32..40] == position && plain[40] == height && plain[41..] == path;
  }

  /** A sealed plaintext splits back into its parts. */
  /** A member's plaintext is taken apart exactly when it is a body key, a position, a count and that
      many whole siblings: nothing short, and nothing trailing. */
  lemma SplitsExactly(plain: seq<byte>, own: Own)
    requires own.position < U64
    ensures SplitOwn(plain) == Ok(own) <==>
              exists n: byte :: |own.path| == 32 * n && plain == own.bodyKey + U64Bytes(own.position) + [n] + own.path
  {
    hide ToLE, LE;
    U64RoundTrip(own.position);
    if SplitOwn(plain) == Ok(own) {
      U64Decoded(plain[32..40]);
      assert plain == plain[..32] + plain[32..40] + [plain[40]] + plain[41..];
    }
    if n: byte :| |own.path| == 32 * n && plain == own.bodyKey + U64Bytes(own.position) + [n] + own.path {
      assert plain[..32] == own.bodyKey && plain[32..40] == U64Bytes(own.position) && plain[40] == n && plain[41..] == own.path;
    }
  }

  lemma OwnSplits(bodyKey: Bytes32, position: nat, path: seq<Bytes32>)
    requires position < U64 && |path| < 256
    ensures SplitOwn(OwnPlain(bodyKey, position, path)) == Ok(Own(bodyKey, position, Joined(path)))
  {
    hide SplitOwn, ToLE, LE, Joined;
    JoinedLength(path, 32);
    U64RoundTrip(position);
    SplitParts(bodyKey, U64Bytes(position), |path| % 256, Joined(path));
  }

  /** The tree of a laid-out class fits its depth, and its truncated paths are what the member
      refills. */
  lemma TruncatedRefills(c: Scheme, cs: ClassState, position: nat)
    requires Primitives(c) && ClassOk(c, cs) && position < |cs.leaves|
    ensures position < U64 && |TruncatedPath(c, cs.leaves, position)| < 64
    ensures PrefixWitness(c, position, TruncatedPath(c, cs.leaves, position))
         == Some(Witness(position, PathBytes(c, cs.leaves, position)))
    ensures Verifies(c, cs.leaves[position], Witness(position, PathBytes(c, cs.leaves, position)), TreeRoot(c, cs.leaves))
  {
    hide PathBytes, OccupiedHeight, Verifies, TreeRoot, PrefixWitness;
    CapacityIsHalf(c);
    Pow2Fits(c.depth);
    RefillRestoresPath(c, cs.leaves, position);
    PathVerifies(c, cs.leaves, position);
  }

  lemma AgreedBothWays(c: Scheme, s: State, secret: Bytes32)
    requires AgreementLaw(c)
    ensures c.agree(secret, c.inboxPublic(Ephemeral(c, s))) == c.agree(Ephemeral(c, s), c.inboxPublic(secret))
  {
  }

  /** The member's view of its own ciphertext. */
  ghost predicate OpensTo(c: Scheme, s: State, k: Bytes32, secret: Bytes32, x: Ciphertext, position: nat) {
    && k in s.classes
    && OwnLookupTag(c, secret, c.inboxPublic(Ephemeral(c, s)), k) == Some(x.tag)
    && OpenOwn(c, secret, c.inboxPublic(Ephemeral(c, s)), s.agora, s.epoch, k, x.bytes)
       == Ok(Own(BodyKeyOf(c, s.tagSecret, s.agora, s.epoch), position, Joined(TruncatedPath(c, s.classes[k].leaves, position))))
  }

  lemma CiphertextOpens(c: Scheme, s: State, k: Bytes32, position: nat, leaf: Bytes32, secret: Bytes32)
    requires SealLaw(c) && AgreementLaw(c) && k in s.classes && position < |s.classes[k].leaves|
    requires InboxLive(s, leaf) == Some(c.inboxPublic(secret))
    requires c.agree(Ephemeral(c, s), c.inboxPublic(secret)).Some?
    requires position < U64 && |TruncatedPath(c, s.classes[k].leaves, position)| < 256
    ensures CiphertextFor(c, s, k, s.classes[k].leaves, (position, leaf)).Some?
    ensures OpensTo(c, s, k, secret, CiphertextFor(c, s, k, s.classes[k].leaves, (position, leaf)).value, position)
  {
    hide InboxLive, TruncatedPath, Ephemeral, BodyKeyOf, Associated, SealKey, OpenSealed, OwnPlain, SplitOwn, SealLaw, AgreementLaw;
    AgreedBothWays(c, s, secret);
    var agreed := c.agree(Ephemeral(c, s), c.inboxPublic(secret)).value;
    var key := SealKey(c, agreed, c.inboxPublic(Ephemeral(c, s)), c.inboxPublic(secret), k);
    var path := TruncatedPath(c, s.classes[k].leaves, position);
    var bodyKey := BodyKeyOf(c, s.tagSecret, s.agora, s.epoch);
    SealedOpens(c, key, s.agora, s.epoch, OwnPlain(bodyKey, position, path));
    OwnSplits(bodyKey, position, path);
  }

  lemma {:induction false} RootPairsHas(roots: map<Bytes32, Bytes32>, ids: seq<Bytes32>, k: Bytes32)
    requires k in ids && k in roots
    ensures Bodies.ClassRootIn(RootPairs(roots, ids), k) == Some(roots[k])
  {
    var init, last := ids[..|ids| - 1], ids[|ids| - 1];
    if k in init {
      RootPairsHas(roots, init, k);
      FirstStays(RootPairs(roots, init), if last in roots then [(last, roots[last])] else [], k);
    } else {
      RootPairsMiss(roots, init, k);
      FirstAdded(RootPairs(roots, init), k, roots[k]);
    }
  }

  lemma {:induction false} RootPairsMiss(roots: map<Bytes32, Bytes32>, ids: seq<Bytes32>, k: Bytes32)
    requires k !in ids
    ensures forall i :: 0 <= i < |RootPairs(roots, ids)| ==> RootPairs(roots, ids)[i].0 != k
  {
    if |ids| > 0 {
      RootPairsMiss(roots, ids[..|ids| - 1], k);
    }
  }

  lemma {:induction false} FirstStays(pairs: seq<(Bytes32, Bytes32)>, more: seq<(Bytes32, Bytes32)>, k: Bytes32)
    requires Bodies.ClassRootIn(pairs, k).Some?
    ensures Bodies.ClassRootIn(pairs + more, k) == Bodies.ClassRootIn(pairs, k)
  {
    assert (pairs + more)[0] == pairs[0];
    if pairs[0].0 != k {
      assert (pairs + more)[1..] == pairs[1..] + more;
      FirstStays(pairs[1..], more, k);
    }
  }

  lemma {:induction false} FirstAdded(pairs: seq<(Bytes32, Bytes32)>, k: Bytes32, root: Bytes32)
    requires forall i :: 0 <= i < |pairs| ==> pairs[i].0 != k
    ensures Bodies.ClassRootIn(pairs + [(k, root)], k) == Some(root)
  {
    if |pairs| > 0 {
      assert (pairs + [(k, root)])[1..] == pairs[1..] + [(k, root)];
      FirstAdded(pairs[1..], k, root);
    } else {
      assert pairs + [(k, root)] == [(k, root)];
    }
  }

  /** The body a member opens: its epoch's roots, both sets whole, and the epoch's tag and fetch keys,
      each derived for its own purpose. */
  ghost predicate BodyOpensTo(c: Scheme, s: State, e: Envelope, v: Bodies.View) {
    && OpenBody(c, BodyKeyOf(c, s.tagSecret, s.agora, s.epoch), s.agora, s.epoch, e.body) == Ok(v)
    && s.epoch in s.history
    && (forall k :: k in s.history[s.epoch].classRoots ==>
          Bodies.ClassRootIn(Pairs(v.classRoots), k) == Some(s.history[s.epoch].classRoots[k]))
    && v.revocationRoot == s.history[s.epoch].revocation && Entries(v.revoked) == KeyList(s.revocations)
    && v.spendRoot == s.history[s.epoch].spend && Entries(v.spent) == KeyList(s.spends)
    && v.tagKey == c.kdf(TagKey, s.tagSecret, s.agora + ToLE(s.epoch, 8))
    && v.fetchKey == c.kdf(FetchKey, s.tagSecret, s.agora + ToLE(s.epoch, 8))
  }

  lemma BodyOpens(c: Scheme, s: State)
    requires SealLaw(c) && s.epoch in s.history && Bodies.Fits(BodyOf(c, s))
    ensures BodyOpensTo(c, s, EnvelopeOf(c, s), Bodies.ViewOf(BodyOf(c, s)))
  {
    hide SealLaw, OpenSealed, Bodies.Parsed, Bodies.Encoded, SentTo, StatementDigest, KeyList, Associated, BodyKeyOf, RootPairs, InOrder,
      Bodies.ClassRootIn, TagKeyOf, FetchKeyOf, Ephemeral;
    var b := BodyOf(c, s);
    SealedOpens(c, BodyKeyOf(c, s.tagSecret, s.agora, s.epoch), s.agora, s.epoch, Bodies.Encoded(b));
    Bodies.BodyRoundTrip(b);
    EpochInputsAre(c, s.tagSecret, s.agora, s.epoch);
    var roots := s.history[s.epoch].classRoots;
    forall k | k in roots ensures Bodies.ClassRootIn(b.classRoots, k) == Some(roots[k]) {
      InOrderHas(roots.Keys, k);
      RootPairsHas(roots, InOrder(roots.Keys), k);
    }
  }

  // ---- Finding it ----

  /** Two derivations whose eight-byte tags collide. */
  predicate TagClash(c: Scheme, a: Derivation, b: Derivation) {
    a != b && Derived(c, a)[..8] == Derived(c, b)[..8]
  }

  ghost predicate LookupTagsDistinct(c: Scheme, q: set<Derivation>) {
    forall a, b {:trigger TagClash(c, a, b)} :: a in q && b in q ==> !TagClash(c, a, b)
  }

  function TagInput(c: Scheme, s: State, k: Bytes32, inbox: Bytes32): Derivation
    requires c.agree(Ephemeral(c, s), inbox).Some?
  {
    Derivation(InboxTag, c.agree(Ephemeral(c, s), inbox).value, SealContext(c.inboxPublic(Ephemeral(c, s)), inbox, k))
  }

  /** Everything derived to tag the current envelope's ciphertexts. */
  ghost function TagInputs(c: Scheme, s: State): set<Derivation> {
    set k, leaf | k in s.classes && leaf in s.classes[k].positions && DeliveryKey(c, s, leaf).Some? ::
      TagInput(c, s, k, DeliveryKey(c, s, leaf).value)
  }

  /** The ciphertext for a landed leaf, if it has one. */
  function OwnCiphertext(c: Scheme, s: State, k: Bytes32, leaf: Bytes32): Option<Ciphertext>
    requires k in s.classes && leaf in s.classes[k].positions
  {
    CiphertextFor(c, s, k, s.classes[k].leaves, (s.classes[k].positions[leaf], leaf))
  }

  /** No leaf of the class at a lower position is delivered to under the same key. */
  ghost predicate FirstUnderKey(c: Scheme, s: State, k: Bytes32, leaf: Bytes32)
    requires k in s.classes && leaf in s.classes[k].positions
  {
    forall other :: other in s.classes[k].positions && s.classes[k].positions[other] < s.classes[k].positions[leaf] ==>
      DeliveryKey(c, s, other) != DeliveryKey(c, s, leaf)
  }

  lemma ContextParts(ephemeral: Bytes32, inbox: Bytes32, k: Bytes32, inbox': Bytes32, k': Bytes32)
    requires SealContext(ephemeral, inbox, k) == SealContext(ephemeral, inbox', k')
    ensures inbox == inbox' && k == k'
  {
    var a, b := SealContext(ephemeral, inbox, k), SealContext(ephemeral, inbox', k');
    assert inbox == a[32..64] && inbox' == b[32..64] && k == a[64..] && k' == b[64..];
  }

  /** Equal tags of delivered ciphertexts come from one class and one key. */
  lemma TagNames(c: Scheme, s: State, k: Bytes32, leaf: Bytes32, k': Bytes32, leaf': Bytes32, q: set<Derivation>)
    requires LookupTagsDistinct(c, q) && TagInputs(c, s) <= q
    requires k in s.classes && leaf in s.classes[k].positions && DeliveryKey(c, s, leaf).Some?
    requires k' in s.classes && leaf' in s.classes[k'].positions && DeliveryKey(c, s, leaf').Some?
    requires Derived(c, TagInput(c, s, k, DeliveryKey(c, s, leaf).value))[..8]
          == Derived(c, TagInput(c, s, k', DeliveryKey(c, s, leaf').value))[..8]
    ensures k == k' && DeliveryKey(c, s, leaf) == DeliveryKey(c, s, leaf')
  {
    hide DeliveryKey, SealContext, EphemeralSecret;
    var a, b := TagInput(c, s, k, DeliveryKey(c, s, leaf).value), TagInput(c, s, k', DeliveryKey(c, s, leaf').value);
    assert a in TagInputs(c, s) && b in TagInputs(c, s);
    assert !TagClash(c, a, b);
    ContextParts(c.inboxPublic(Ephemeral(c, s)), DeliveryKey(c, s, leaf).value, k, DeliveryKey(c, s, leaf').value, k');
  }

  lemma {:induction false} LookupAppend(a: seq<Ciphertext>, b: seq<Ciphertext>, tag: seq<byte>)
    ensures Lookup(a + b, tag) == if Lookup(a, tag).Some? then Lookup(a, tag) else Lookup(b, tag)
  {
    if |a| > 0 {
      assert (a + b)[0] == a[0] && (a + b)[1..] == a[1..] + b;
      LookupAppend(a[1..], b, tag);
    } else {
      assert a + b == b;
    }
  }

  /** Nothing sent to these slots carries the tag. */
  ghost predicate Untagged(c: Scheme, s: State, k: Bytes32, leaves: seq<Bytes32>, slots: seq<(nat, Bytes32)>, tag: seq<byte>) {
    forall i :: 0 <= i < |slots| ==>
      CiphertextFor(c, s, k, leaves, slots[i]).None? || CiphertextFor(c, s, k, leaves, slots[i]).value.tag != tag
  }

  lemma {:induction false} UntaggedMisses(c: Scheme, s: State, k: Bytes32, leaves: seq<Bytes32>, slots: seq<(nat, Bytes32)>, tag: seq<byte>)
    requires Untagged(c, s, k, leaves, slots, tag)
    ensures Lookup(Sent(c, s, k, leaves, slots), tag).None?
  {
    hide CiphertextFor;
    if |slots| > 0 {
      UntaggedMisses(c, s, k, leaves, slots[..|slots| - 1], tag);
      var last := CiphertextFor(c, s, k, leaves, slots[|slots| - 1]);
      LookupAppend(Sent(c, s, k, leaves, slots[..|slots| - 1]), if last.Some? then [last.value] else [], tag);
    }
  }

  /** A class's list is searched in position order. */
  lemma {:induction false} FirstTagged(c: Scheme, s: State, k: Bytes32, leaves: seq<Bytes32>, slots: seq<(nat, Bytes32)>, i: nat)
    requires i < |slots| && CiphertextFor(c, s, k, leaves, slots[i]).Some?
    requires Untagged(c, s, k, leaves, slots[..i], CiphertextFor(c, s, k, leaves, slots[i]).value.tag)
    ensures Lookup(Sent(c, s, k, leaves, slots), CiphertextFor(c, s, k, leaves, slots[i]).value.tag)
         == CiphertextFor(c, s, k, leaves, slots[i])
  {
    hide CiphertextFor, Untagged;
    var init, x := slots[..|slots| - 1], CiphertextFor(c, s, k, leaves, slots[i]).value;
    var last := CiphertextFor(c, s, k, leaves, slots[|slots| - 1]);
    LookupAppend(Sent(c, s, k, leaves, init), if last.Some? then [last.value] else [], x.tag);
    if i < |slots| - 1 {
      assert init[i] == slots[i] && init[..i] == slots[..i];
      FirstTagged(c, s, k, leaves, init, i);
    } else {
      UntaggedMisses(c, s, k, leaves, init, x.tag);
    }
  }

  /** A delivered leaf's tag is carried by no ciphertext of a class whose members are delivered to
      under other keys, or of another class. */
  lemma OthersUntagged(c: Scheme, s: State, k: Bytes32, leaf: Bytes32, k': Bytes32, count: nat, q: set<Derivation>)
    requires LookupTagsDistinct(c, q) && TagInputs(c, s) <= q
    requires k in s.classes && leaf in s.classes[k].positions && DeliveryKey(c, s, leaf).Some?
    requires k' in s.classes && ClassOk(c, s.classes[k']) && count <= s.classes[k'].occupied
    requires k' == k ==> 2 * count <= s.classes[k].positions[leaf] && FirstUnderKey(c, s, k, leaf)
    ensures Untagged(c, s, k', s.classes[k'].leaves, ByPosition(s.classes[k'])[..count],
                     Derived(c, TagInput(c, s, k, DeliveryKey(c, s, leaf).value))[..8])
  {
    hide DeliveryKey, LookupTagsDistinct, TagInputs, ByPosition, TruncatedPath, OwnPlain, SealKey, Associated, BodyKeyOf, EphemeralSecret,
      CiphertextFor, SealContext;
    var cs, slots := s.classes[k'], ByPosition(s.classes[k']);
    var tag := Derived(c, TagInput(c, s, k, DeliveryKey(c, s, leaf).value))[..8];
    forall i | 0 <= i < count
      ensures CiphertextFor(c, s, k', cs.leaves, slots[..count][i]).None? || CiphertextFor(c, s, k', cs.leaves, slots[..count][i]).value.tag != tag
    {
      SlotIsLanded(c, cs, i);
      SlotInTree(c, cs, i);
      CiphertextIs(c, s, k', cs.leaves, slots[i]);
      if DeliveryKey(c, s, slots[i].1).Some? && CiphertextFor(c, s, k', cs.leaves, slots[i]).value.tag == tag {
        TagNames(c, s, k, leaf, k', slots[i].1, q);
        assert false;
      }
    }
  }

  lemma SlotInTree(c: Scheme, cs: ClassState, i: nat)
    requires ClassOk(c, cs) && i < cs.occupied
    ensures ByPosition(cs)[i].0 < |cs.leaves|
  {
  }

  lemma {:induction false} OtherClassesMiss(c: Scheme, s: State, ids: seq<Bytes32>, k: Bytes32, leaf: Bytes32, q: set<Derivation>)
    requires LookupTagsDistinct(c, q) && TagInputs(c, s) <= q && ClassesOk(c, s.classes)
    requires k in s.classes && leaf in s.classes[k].positions && DeliveryKey(c, s, leaf).Some? && k !in ids
    ensures Lookup(SentTo(c, s, ids), Derived(c, TagInput(c, s, k, DeliveryKey(c, s, leaf).value))[..8]).None?
  {
    hide DeliveryKey, LookupTagsDistinct, TagInputs, ClassesOk, ClassOk, Sent, ByPosition, TagInput, Derived, Untagged;
    if |ids| > 0 {
      var init, last := ids[..|ids| - 1], ids[|ids| - 1];
      var tag := Derived(c, TagInput(c, s, k, DeliveryKey(c, s, leaf).value))[..8];
      OtherClassesMiss(c, s, init, k, leaf, q);
      if last in s.classes {
        var slots := ByPosition(s.classes[last]);
        ClassIn(c, s.classes, last);
        OthersUntagged(c, s, k, leaf, last, s.classes[last].occupied, q);
        assert slots[..s.classes[last].occupied] == slots;
        UntaggedMisses(c, s, last, s.classes[last].leaves, slots, tag);
        LookupAppend(SentTo(c, s, init), Sent(c, s, last, s.classes[last].leaves, slots), tag);
      } else {
        LookupAppend(SentTo(c, s, init), [], tag);
      }
    }
  }

  lemma DeliveredHas(c: Scheme, s: State, k: Bytes32, leaf: Bytes32)
    requires k in s.classes && ClassOk(c, s.classes[k]) && leaf in s.classes[k].positions
    ensures OwnCiphertext(c, s, k, leaf).Some? <==> DeliveryKey(c, s, leaf).Some?
    ensures DeliveryKey(c, s, leaf).Some? ==>
              OwnCiphertext(c, s, k, leaf).value.tag == Derived(c, TagInput(c, s, k, DeliveryKey(c, s, leaf).value))[..8]
  {
    hide DeliveryKey, TruncatedPath, OwnPlain, SealKey, Associated, BodyKeyOf, EphemeralSecret, CiphertextFor;
    CiphertextIs(c, s, k, s.classes[k].leaves, (s.classes[k].positions[leaf], leaf));
  }

  lemma {:induction false} FirstIsFound(c: Scheme, s: State, ids: seq<Bytes32>, k: Bytes32, leaf: Bytes32, q: set<Derivation>)
    requires LookupTagsDistinct(c, q) && TagInputs(c, s) <= q && ClassesOk(c, s.classes)
    requires k in s.classes && leaf in s.classes[k].positions && OwnCiphertext(c, s, k, leaf).Some?
    requires FirstUnderKey(c, s, k, leaf) && k in ids
    ensures Lookup(SentTo(c, s, ids), OwnCiphertext(c, s, k, leaf).value.tag) == OwnCiphertext(c, s, k, leaf)
  {
    hide DeliveryKey, LookupTagsDistinct, TagInputs, ClassesOk, ClassOk, Sent, ByPosition, TagInput, Derived, FirstUnderKey, OwnCiphertext;
    var init, last := ids[..|ids| - 1], ids[|ids| - 1];
    var x := OwnCiphertext(c, s, k, leaf).value;
    var more := if last in s.classes then Sent(c, s, last, s.classes[last].leaves, ByPosition(s.classes[last])) else [];
    ClassIn(c, s.classes, k);
    DeliveredHas(c, s, k, leaf);
    LookupAppend(SentTo(c, s, init), more, x.tag);
    if k in init {
      FirstIsFound(c, s, init, k, leaf, q);
    } else {
      OtherClassesMiss(c, s, init, k, leaf, q);
      FirstInClass(c, s, k, leaf, q);
    }
  }

  lemma FirstInClass(c: Scheme, s: State, k: Bytes32, leaf: Bytes32, q: set<Derivation>)
    requires LookupTagsDistinct(c, q) && TagInputs(c, s) <= q
    requires k in s.classes && ClassOk(c, s.classes[k]) && leaf in s.classes[k].positions
    requires OwnCiphertext(c, s, k, leaf).Some? && FirstUnderKey(c, s, k, leaf)
    ensures Lookup(Sent(c, s, k, s.classes[k].leaves, ByPosition(s.classes[k])), OwnCiphertext(c, s, k, leaf).value.tag)
         == OwnCiphertext(c, s, k, leaf)
  {
    hide DeliveryKey, LookupTagsDistinct, TagInputs, ClassOk, Sent, ByPosition, TagInput, Derived, FirstUnderKey, CiphertextFor, Untagged;
    var cs := s.classes[k];
    LandedSlot(c, cs, leaf);
    DeliveredHas(c, s, k, leaf);
    OthersUntagged(c, s, k, leaf, k, cs.positions[leaf] / 2, q);
    FirstTagged(c, s, k, cs.leaves, ByPosition(cs), cs.positions[leaf] / 2);
  }

  /** Some leaf is the first of its class under a key. */
  lemma FirstExists(c: Scheme, s: State, k: Bytes32, leaf: Bytes32) returns (first: Bytes32)
    requires k in s.classes && leaf in s.classes[k].positions
    ensures first in s.classes[k].positions && s.classes[k].positions[first] <= s.classes[k].positions[leaf]
    ensures DeliveryKey(c, s, first) == DeliveryKey(c, s, leaf) && FirstUnderKey(c, s, k, first)
    decreases s.classes[k].positions[leaf]
  {
    hide DeliveryKey;
    if FirstUnderKey(c, s, k, leaf) {
      first := leaf;
    } else {
      var other :| other in s.classes[k].positions && s.classes[k].positions[other] < s.classes[k].positions[leaf]
                   && DeliveryKey(c, s, other) == DeliveryKey(c, s, leaf);
      first := FirstExists(c, s, k, other);
    }
  }

  /** Plaintexts for two positions differ, so their ciphertexts under one key do. */
  lemma PositionsSealApart(c: Scheme, s: State, k: Bytes32, leaves: seq<Bytes32>, position: nat, position': nat, inbox: Bytes32)
    requires SealLaw(c) && c.agree(Ephemeral(c, s), inbox).Some? && position < U64 && position' < U64 && position != position'
    ensures CiphertextTo(c, s, k, leaves, position, inbox) != CiphertextTo(c, s, k, leaves, position', inbox)
  {
    hide SealLaw, TruncatedPath, OwnPlain, SealKey, Associated, BodyKeyOf, EphemeralSecret, LookupTag;
    var bodyKey := BodyKeyOf(c, s.tagSecret, s.agora, s.epoch);
    var agreed := c.agree(Ephemeral(c, s), inbox).value;
    var key := SealKey(c, agreed, c.inboxPublic(Ephemeral(c, s)), inbox, k);
    var a, b := OwnPlain(bodyKey, position, TruncatedPath(c, leaves, position)), OwnPlain(bodyKey, position', TruncatedPath(c, leaves, position'));
    SealedOpens(c, key, s.agora, s.epoch, a);
    SealedOpens(c, key, s.agora, s.epoch, b);
    PlainPosition(bodyKey, position, TruncatedPath(c, leaves, position));
    PlainPosition(bodyKey, position', TruncatedPath(c, leaves, position'));
  }

  lemma PlainPosition(bodyKey: Bytes32, position: nat, path: seq<Bytes32>)
    requires position < U64
    ensures |OwnPlain(bodyKey, position, path)| >= 40 && LE(OwnPlain(bodyKey, position, path)[32..40]) == position
  {
    hide ToLE, LE, Joined;
    U64RoundTrip(position);
    assert OwnPlain(bodyKey, position, path)[32..40] == U64Bytes(position);
  }

  /** Which ciphertext a member's lookup gives, exactly: its own if and only if no lower position of
      its class is delivered to under the same inbox key. */
  lemma LookupFindsOwn(c: Scheme, s: State, ids: seq<Bytes32>, k: Bytes32, leaf: Bytes32, q: set<Derivation>)
    requires Primitives(c) && SealLaw(c) && LookupTagsDistinct(c, q) && TagInputs(c, s) <= q && ClassesOk(c, s.classes)
    requires k in s.classes && k in ids && leaf in s.classes[k].positions && OwnCiphertext(c, s, k, leaf).Some?
    ensures Lookup(SentTo(c, s, ids), OwnCiphertext(c, s, k, leaf).value.tag) == OwnCiphertext(c, s, k, leaf)
       <==> FirstUnderKey(c, s, k, leaf)
  {
    hide SealLaw, DeliveryKey, LookupTagsDistinct, TagInputs, ClassesOk, ClassOk, SentTo, TagInput, Derived, FirstUnderKey, CiphertextTo;
    ClassIn(c, s.classes, k);
    if FirstUnderKey(c, s, k, leaf) {
      FirstIsFound(c, s, ids, k, leaf, q);
    } else {
      var cs := s.classes[k];
      var first := FirstExists(c, s, k, leaf);
      DeliveredHas(c, s, k, leaf);
      DeliveredHas(c, s, k, first);
      FirstIsFound(c, s, ids, k, first, q);
      OwnIs(c, s, k, leaf);
      OwnIs(c, s, k, first);
      PositionsSealApart(c, s, k, cs.leaves, cs.positions[first], cs.positions[leaf], DeliveryKey(c, s, leaf).value);
    }
  }

  lemma OwnIs(c: Scheme, s: State, k: Bytes32, leaf: Bytes32)
    requires Primitives(c) && k in s.classes && ClassOk(c, s.classes[k]) && leaf in s.classes[k].positions && DeliveryKey(c, s, leaf).Some?
    ensures s.classes[k].positions[leaf] < U64
    ensures OwnCiphertext(c, s, k, leaf)
         == Some(CiphertextTo(c, s, k, s.classes[k].leaves, s.classes[k].positions[leaf], DeliveryKey(c, s, leaf).value))
  {
    hide DeliveryKey, CiphertextTo, CiphertextFor;
    var cs := s.classes[k];
    CapacityIsHalf(c);
    Pow2Fits(c.depth);
    CiphertextIs(c, s, k, cs.leaves, (cs.positions[leaf], leaf));
  }

  // ---- The delivery theorem ----

  /** Everything one member needs, found and opened with its own inbox secret alone: its
      ciphertext, the body under the key inside, and from the path delivered a witness that
      verifies its leaf under the body's own root for its class. */
  ghost predicate Equipped(c: Scheme, s: State, e: Envelope, k: Bytes32, leaf: Bytes32, secret: Bytes32, x: Ciphertext) {
    && x in e.ciphertexts
    && OwnLookupTag(c, secret, e.ephemeralKey, k) == Some(x.tag)
    && OpenOwn(c, secret, e.ephemeralKey, s.agora, e.epoch, k, x.bytes).Ok?
    && var own := OpenOwn(c, secret, e.ephemeralKey, s.agora, e.epoch, k, x.bytes).value;
    && OpenBody(c, own.bodyKey, s.agora, e.epoch, e.body).Ok?
    && var body := OpenBody(c, own.bodyKey, s.agora, e.epoch, e.body).value;
    && Bodies.ClassRootIn(Pairs(body.classRoots), k).Some?
    && PrefixWitness(c, own.position, Entries(own.path)).Some?
    && Verifies(c, leaf, PrefixWitness(c, own.position, Entries(own.path)).value, Bodies.ClassRootIn(Pairs(body.classRoots), k).value)
    && SetRoot(c, Rebuilt(Entries(body.revoked))) == body.revocationRoot
    && SetRoot(c, Rebuilt(Entries(body.spent))) == body.spendRoot
    && Rebuilt(Entries(body.revoked)) == s.revocations && Rebuilt(Entries(body.spent)) == s.spends
  }

  lemma OpenedWitness(c: Scheme, s: State, k: Bytes32, position: nat)
    requires Primitives(c) && k in s.classes && ClassOk(c, s.classes[k]) && position < |s.classes[k].leaves|
    ensures PrefixWitness(c, position, Entries(Joined(TruncatedPath(c, s.classes[k].leaves, position)))).Some?
    ensures Verifies(c, s.classes[k].leaves[position],
                     PrefixWitness(c, position, Entries(Joined(TruncatedPath(c, s.classes[k].leaves, position)))).value,
                     TreeRoot(c, s.classes[k].leaves))
  {
    hide PrefixWitness, Verifies, TreeRoot, TruncatedPath, PathBytes;
    TruncatedRefills(c, s.classes[k], position);
    EntriesOfJoined(TruncatedPath(c, s.classes[k].leaves, position));
  }

  lemma CurrentRoots(c: Scheme, w: World, k: Bytes32)
    requires Sound(c, w) && k in w.s.classes
    ensures w.s.epoch in w.s.history && k in w.s.history[w.s.epoch].classRoots
    ensures w.s.history[w.s.epoch].classRoots[k] == TreeRoot(c, w.s.classes[k].leaves)
    ensures w.s.history[w.s.epoch].revocation == SetRoot(c, w.s.revocations)
    ensures w.s.history[w.s.epoch].spend == SetRoot(c, w.s.spends)
  {
    hide Core, TreeRoot, SetRoot, Growing;
    NowCovered(c, w);
    PastRoots(c, w, w.s.epoch);
    assert k in RootsOf(c, TreesOf(w.s)).classRoots;
  }

  lemma LandedSlot(c: Scheme, cs: ClassState, leaf: Bytes32)
    requires ClassOk(c, cs) && leaf in cs.positions
    ensures var p := cs.positions[leaf];
            p < |cs.leaves| && cs.leaves[p] == leaf && p / 2 < |ByPosition(cs)| && ByPosition(cs)[p / 2] == (p, leaf)
  {
    hide ByPosition, Capacity;
    SlotValue(cs, cs.positions[leaf] / 2);
  }

  lemma SlotValue(cs: ClassState, i: nat)
    requires i < cs.occupied && 2 * i < |cs.leaves|
    ensures ByPosition(cs)[i] == (2 * i, cs.leaves[2 * i])
  {
  }

  lemma OwnIsSent(c: Scheme, w: World, k: Bytes32, leaf: Bytes32, secret: Bytes32)
    requires Primitives(c) && SealLaw(c) && AgreementLaw(c) && Sound(c, w)
    requires k in w.s.classes && leaf in w.s.classes[k].positions
    requires InboxLive(w.s, leaf) == Some(c.inboxPublic(secret))
    requires c.agree(Ephemeral(c, w.s), c.inboxPublic(secret)).Some?
    ensures OwnCiphertext(c, w.s, k, leaf).Some? && k in InOrder(w.s.classes.Keys)
    ensures OwnCiphertext(c, w.s, k, leaf).value in SentTo(c, w.s, InOrder(w.s.classes.Keys))
    ensures OpensTo(c, w.s, k, secret, OwnCiphertext(c, w.s, k, leaf).value, w.s.classes[k].positions[leaf])
  {
    hide Sound, Core, ClassOk, ClassesOk, StagedOk, SealLaw, AgreementLaw, InOrder, SentTo, Sent, CiphertextFor, OpensTo,
      TruncatedPath, ByPosition, Verifies, PrefixWitness, PathBytes, InboxLive;
    SoundLayout(c, w, k);
    var cs := w.s.classes[k];
    var position := cs.positions[leaf];
    LandedSlot(c, cs, leaf);
    TruncatedRefills(c, cs, position);
    CiphertextOpens(c, w.s, k, position, leaf, secret);
    SentHas(c, w.s, k, cs.leaves, ByPosition(cs), position / 2);
    InOrderHas(w.s.classes.Keys, k);
    SentToHas(c, w.s, InOrder(w.s.classes.Keys), k, CiphertextFor(c, w.s, k, cs.leaves, (position, leaf)).value);
  }

  lemma SoundLayout(c: Scheme, w: World, k: Bytes32)
    requires Sound(c, w) && k in w.s.classes
    ensures ClassOk(c, w.s.classes[k]) && InDomain(w.s.revocations) && InDomain(w.s.spends)
  {
    hide Core, Covered, GroundOf, ClassOk;
    CoreLayout(c, w.s);
    CoreSets(c, w.s);
    ClassIn(c, w.s.classes, k);
  }

  lemma OpenedIsEquipped(c: Scheme, w: World, k: Bytes32, leaf: Bytes32, secret: Bytes32, x: Ciphertext)
    requires Primitives(c) && SealLaw(c) && Sound(c, w) && k in w.s.classes && leaf in w.s.classes[k].positions
    requires w.s.epoch in w.s.history && Bodies.Fits(BodyOf(c, w.s))
    requires x in SentTo(c, w.s, InOrder(w.s.classes.Keys))
    requires OpensTo(c, w.s, k, secret, x, w.s.classes[k].positions[leaf])
    ensures Equipped(c, w.s, EnvelopeOf(c, w.s), k, leaf, secret, x)
  {
    hide Sound, ClassOk, SealLaw, InOrder, SentTo, TruncatedPath, Verifies, PrefixWitness, OpenOwn, OpenBody, OwnLookupTag,
      SetRoot, TreeRoot, KeyList, Rebuilt, Entries, Pairs, Joined, Bodies.ClassRootIn, BodyOf, BodyKeyOf, Ephemeral, StatementDigest,
      Bodies.Fits, Bodies.Encoded, Bodies.ViewOf, Associated, ByPosition;
    SoundLayout(c, w, k);
    LandedSlot(c, w.s.classes[k], leaf);
    CurrentRoots(c, w, k);
    OpenedWitness(c, w.s, k, w.s.classes[k].positions[leaf]);
    BodyOpens(c, w.s);
    RebuiltIsSame(w.s.revocations);
    RebuiltIsSame(w.s.spends);
  }

  /** In every run, the current envelope equips every landed leaf whose registration is live and
      agrees: its ciphertext is there and opens with the member's own inbox secret, the key inside
      opens the body, its path rebuilds to a witness for the leaf under the body's root, and the
      body's lists rebuild to sets with exactly its exclusion roots. Its lookup gives that very
      ciphertext if and only if no lower position of the class is delivered to under the same key,
      up to a listed collision of tags. */
  lemma EnvelopeEquipsMembers(c: Scheme, w: World, k: Bytes32, leaf: Bytes32, secret: Bytes32, q: set<Derivation>)
    requires Primitives(c) && SealLaw(c) && AgreementLaw(c) && Reachable(c, w)
    requires k in w.s.classes && leaf in w.s.classes[k].positions
    requires InboxLive(w.s, leaf) == Some(c.inboxPublic(secret))
    requires c.agree(Ephemeral(c, w.s), c.inboxPublic(secret)).Some?
    requires w.s.epoch in w.s.history && Bodies.Fits(BodyOf(c, w.s))
    ensures OwnCiphertext(c, w.s, k, leaf).Some?
    ensures Equipped(c, w.s, EnvelopeOf(c, w.s), k, leaf, secret, OwnCiphertext(c, w.s, k, leaf).value)
    ensures TagInputs(c, w.s) <= q && LookupTagsDistinct(c, q) ==>
              (Lookup(EnvelopeOf(c, w.s).ciphertexts, OwnCiphertext(c, w.s, k, leaf).value.tag) == OwnCiphertext(c, w.s, k, leaf)
               <==> FirstUnderKey(c, w.s, k, leaf))
  {
    hide Reachable, Sound, SealLaw, AgreementLaw, InOrder, SentTo, OpensTo, InboxLive, Equipped, Bodies.Fits, BodyOf, OwnCiphertext,
      TagInputs, LookupTagsDistinct, FirstUnderKey, StatementDigest, Bodies.Encoded, ClassesOk;
    ReachableIsSound(c, w);
    OwnIsSent(c, w, k, leaf, secret);
    OpenedIsEquipped(c, w, k, leaf, secret, OwnCiphertext(c, w.s, k, leaf).value);
    SoundClasses(c, w);
    if TagInputs(c, w.s) <= q && LookupTagsDistinct(c, q) {
      LookupFindsOwn(c, w.s, InOrder(w.s.classes.Keys), k, leaf, q);
    }
  }

  lemma SoundClasses(c: Scheme, w: World)
    requires Sound(c, w)
    ensures ClassesOk(c, w.s.classes)
  {
    hide Core, Covered, GroundOf, Growing, ClassesOk;
    CoreLayout(c, w.s);
  }

  /** A member with an epoch to gain accepts the envelope its operator signed. */
  lemma HonestEnvelopeAccepted(c: Scheme, w: World, current: Option<nat>)
    requires Primitives(c) && SignLaw(c) && Reachable(c, w) && w.s.epoch in w.s.history
    requires current.None? || current.value < w.s.epoch
    ensures PublicKey(c, w.s.statementSeed).Some?
    ensures AcceptEnvelope(c, PublicKey(c, w.s.statementSeed).value, w.s.agora, EnvelopeOf(c, w.s), current) == Ok(())
  {
    hide Reachable, Core, Covered, Growing, VerifySignature, StatementParts, SentTo, InOrder, BodyOf, Bodies.Encoded, WellKept;
    ReachableIsSound(c, w);
  }

  // ---- What the signature pins ----

  lemma {:induction false} ListPartsInjective(a: seq<Ciphertext>, b: seq<Ciphertext>)
    requires ListParts(a) == ListParts(b)
    ensures a == b
  {
    assert |a| == |b|;
    if |a| > 0 {
      var x, y := ListParts(a), ListParts(b);
      assert x[..|x| - 2] == ListParts(a[..|a| - 1]) && y[..|y| - 2] == ListParts(b[..|b| - 1]);
      assert x[|x| - 2] == y[|y| - 2] && x[|x| - 1] == y[|y| - 1];
      ListPartsInjective(a[..|a| - 1], b[..|b| - 1]);
      assert a == a[..|a| - 1] + [a[|a| - 1]] && b == b[..|b| - 1] + [b[|b| - 1]];
    }
  }

  /** A ciphertext list's preimage determines the list: nothing in it can be moved, dropped or
      added. */
  lemma ListPreimageInjective(a: seq<Ciphertext>, b: seq<Ciphertext>)
    requires Framable(ListParts(a)) && Framable(ListParts(b))
    requires Preimage(EnvelopeCiphertexts, CountedParts(a)) == Preimage(EnvelopeCiphertexts, CountedParts(b))
    ensures a == b
  {
    hide Preimage, Framable, ListParts;
    CountedFramable(a);
    CountedFramable(b);
    PreimageInjective(EnvelopeCiphertexts, CountedParts(a), EnvelopeCiphertexts, CountedParts(b));
    assert CountedParts(a)[1..] == ListParts(a) && CountedParts(b)[1..] == ListParts(b);
    ListPartsInjective(a, b);
  }

  lemma CountedFramable(list: seq<Ciphertext>)
    requires Framable(ListParts(list))
    ensures Framable(CountedParts(list))
  {
    hide ListParts, ToLE;
  }

  ghost predicate StatementFits(epoch: nat, body: seq<byte>, head: Option<SignedHead>) {
    epoch < U64 && |body| < U64 && (head.Some? ==> head.value.sequence < U64 && |head.value.signature| < U64)
  }

  lemma HeadPartsInjective(a: Option<SignedHead>, b: Option<SignedHead>)
    requires a.Some? ==> a.value.sequence < U64
    requires b.Some? ==> b.value.sequence < U64
    requires HeadParts(a) == HeadParts(b)
    ensures a == b
  {
    var x, y := HeadParts(a), HeadParts(b);
    assert |x| == |y|;
    if a.Some? {
      U64RoundTrip(a.value.sequence);
      U64RoundTrip(b.value.sequence);
      assert x[1] == y[1] && x[2] == y[2] && x[3] == y[3];
    }
  }

  /** A statement's preimage determines everything the signature covers. */
  lemma StatementInjective(
    agora: Bytes32, epoch: nat, ephemeral: Bytes32, body: seq<byte>, list: Bytes32, head: Option<SignedHead>,
    agora': Bytes32, epoch': nat, ephemeral': Bytes32, body': seq<byte>, list': Bytes32, head': Option<SignedHead>)
    requires StatementFits(epoch, body, head) && StatementFits(epoch', body', head')
    requires Preimage(Bulletin, StatementParts(agora, epoch, ephemeral, body, list, head))
          == Preimage(Bulletin, StatementParts(agora', epoch', ephemeral', body', list', head'))
    ensures agora == agora' && epoch == epoch' && ephemeral == ephemeral' && body == body' && list == list' && head == head'
  {
    hide Preimage;
    var x := StatementParts(agora, epoch, ephemeral, body, list, head);
    var y := StatementParts(agora', epoch', ephemeral', body', list', head');
    PreimageInjective(Bulletin, x, Bulletin, y);
    U64RoundTrip(epoch);
    U64RoundTrip(epoch');
    assert x[0] == y[0] && x[1] == y[1] && x[2] == y[2] && x[3] == y[3] && x[4] == y[4];
    assert x[5..] == HeadParts(head) && y[5..] == HeadParts(head');
    HeadPartsInjective(head, head');
  }
}
