/** What a member or an auditor takes under the operator's keys, exactly: a signature is for one
    envelope, or one head, and a fork takes two the operator signed. */
module Acceptance {
  import opened Wrappers
  import opened Bytes
  import opened Crypto
  import opened Framing
  import opened Bindings
  import opened Operator
  import opened OperatorLayout
  import opened OperatorRuns
  import opened OperatorLog
  import opened OperatorSafety
  import opened OperatorMembership
  import opened OperatorServing
  import opened OperatorRecords
  import opened OperatorRegistrations
  import opened Inboxes
  import opened Bulletins
  import opened Log
  import Bodies

  // ---- Envelopes ----

  /** The operator's signature on the envelope verifies under a key. */
  predicate SignedUnder(c: Scheme, pk: seq<byte>, agora: Bytes32, e: Envelope) {
    VerifySignature(c, pk, FromId(StatementDigest(c, agora, e)), e.signature)
  }

  /** An envelope is accepted if and only if its epoch is past the member's own, if it has one, and
      its signature verifies under the pinned key over the digest of everything it says; any other is
      malformed. */
  lemma AcceptedExactly(c: Scheme, pk: seq<byte>, agora: Bytes32, e: Envelope, current: Option<nat>)
    ensures AcceptEnvelope(c, pk, agora, e, current)
         == if (current.Some? ==> current.value < e.epoch) && SignedUnder(c, pk, agora, e) then Ok(()) else Err(Malformed)
  {
    hide VerifySignature, StatementDigest;
  }

  /** Once accepted, neither it nor any other of its epoch or an earlier one is accepted again. */
  lemma RefusedAgain(c: Scheme, pk: seq<byte>, agora: Bytes32, e: Envelope, current: Option<nat>, pk': seq<byte>, agora': Bytes32, e': Envelope)
    requires AcceptEnvelope(c, pk, agora, e, current).Ok?
    ensures e'.epoch <= e.epoch ==> AcceptEnvelope(c, pk', agora', e', Some(e.epoch)) == Err(Malformed)
    ensures current.Some? ==> current.value < e.epoch
  {
    hide VerifySignature, StatementDigest;
    AcceptedExactly(c, pk, agora, e, current);
    AcceptedExactly(c, pk', agora', e', Some(e.epoch));
  }

  /** What signing or checking an envelope hashes. */
  ghost function StatementQueries(c: Scheme, agora: Bytes32, e: Envelope): set<Query> {
    {Query(EnvelopeCiphertexts, CountedParts(e.ciphertexts)),
     Query(Bulletin, StatementParts(agora, e.epoch, e.ephemeralKey, e.body, CiphertextsDigest(c, e.ciphertexts), e.head))}
  }

  /** The integer widths an envelope's fields have. */
  predicate Wide(e: Envelope) {
    e.epoch < U64 && (e.head.Some? ==> e.head.value.sequence < U64)
  }

  lemma PartsName(a: Bytes32, e: Envelope, l: Bytes32, a': Bytes32, e': Envelope, l': Bytes32)
    requires Wide(e) && Wide(e')
    requires StatementParts(a, e.epoch, e.ephemeralKey, e.body, l, e.head) == StatementParts(a', e'.epoch, e'.ephemeralKey, e'.body, l', e'.head)
    ensures a == a' && e.epoch == e'.epoch && e.ephemeralKey == e'.ephemeralKey && e.body == e'.body && l == l' && e.head == e'.head
  {
    hide HeadParts, ToLE;
    var x := StatementParts(a, e.epoch, e.ephemeralKey, e.body, l, e.head);
    var y := StatementParts(a', e'.epoch, e'.ephemeralKey, e'.body, l', e'.head);
    U64RoundTrip(e.epoch);
    U64RoundTrip(e'.epoch);
    assert x[0] == y[0] && x[1] == y[1] && x[2] == y[2] && x[3] == y[3] && x[4] == y[4];
    assert x[5..] == HeadParts(e.head) && y[5..] == HeadParts(e'.head);
    HeadPartsInjective(e.head, e'.head);
  }

  lemma CountedName(a: seq<Ciphertext>, b: seq<Ciphertext>)
    requires CountedParts(a) == CountedParts(b)
    ensures a == b
  {
    hide ListParts, ToLE;
    assert CountedParts(a)[1..] == ListParts(a) && CountedParts(b)[1..] == ListParts(b);
    ListPartsInjective(a, b);
  }

  /** A statement's message names its agora and everything in the envelope but the signature. */
  lemma StatementNames(c: Scheme, agora: Bytes32, e: Envelope, agora': Bytes32, e': Envelope, q: set<Query>)
    requires FromId(StatementDigest(c, agora, e)) == FromId(StatementDigest(c, agora', e'))
    requires StatementQueries(c, agora, e) + StatementQueries(c, agora', e') <= q && ReducedCollisionFree(c, q)
    requires Wide(e) && Wide(e')
    ensures agora == agora' && e'.(signature := e.signature) == e
  {
    hide ListParts, ReducedCollisionFree, ToLE, StatementParts, CountedParts;
    var x, y := CiphertextsDigest(c, e.ciphertexts), CiphertextsDigest(c, e'.ciphertexts);
    ReducedNames(c, q, Query(Bulletin, StatementParts(agora, e.epoch, e.ephemeralKey, e.body, x, e.head)),
                 Query(Bulletin, StatementParts(agora', e'.epoch, e'.ephemeralKey, e'.body, y, e'.head)));
    PartsName(agora, e, x, agora', e', y);
    ReducedNames(c, q, Query(EnvelopeCiphertexts, CountedParts(e.ciphertexts)), Query(EnvelopeCiphertexts, CountedParts(e'.ciphertexts)));
    CountedName(e.ciphertexts, e'.ciphertexts);
  }

  /** The equations two verifications of one signature check. */
  ghost function TwoChecks(c: Scheme, pk: seq<byte>, m: F, m': F, signature: seq<byte>): set<Check> {
    set x | x in [CheckOf(c, pk, m, signature), CheckOf(c, pk, m', signature)] && x.Some? :: x.value
  }

  lemma OneMessage(c: Scheme, pk: seq<byte>, m: F, m': F, signature: seq<byte>, checks: set<Check>)
    requires VerifySignature(c, pk, m, signature) && VerifySignature(c, pk, m', signature)
    requires TwoChecks(c, pk, m, m', signature) <= checks && ChecksDistinct(c, checks)
    ensures m == m'
  {
    hide VerifySignature, CheckOf, ChecksDistinct;
    VerifiesExactly(c, pk, m, signature);
    VerifiesExactly(c, pk, m', signature);
    var both := [CheckOf(c, pk, m, signature), CheckOf(c, pk, m', signature)];
    assert both[0] in both && both[1] in both;
    assert both[0].value in TwoChecks(c, pk, m, m', signature) && both[1].value in TwoChecks(c, pk, m, m', signature);
    SignatureNames(c, pk, m, m', signature, checks);
  }

  /** Any envelope accepted under a key on the signature another carries is that very envelope, for
      the same agora. */
  lemma AcceptedIsSigned(c: Scheme, pk: seq<byte>, agora: Bytes32, signed: Envelope, agora': Bytes32, e: Envelope, current: Option<nat>,
                         q: set<Query>, checks: set<Check>)
    requires SignedUnder(c, pk, agora, signed) && e.signature == signed.signature
    requires StatementQueries(c, agora, signed) + StatementQueries(c, agora', e) <= q && ReducedCollisionFree(c, q)
    requires TwoChecks(c, pk, FromId(StatementDigest(c, agora, signed)), FromId(StatementDigest(c, agora', e)), e.signature) <= checks
    requires ChecksDistinct(c, checks) && Wide(signed) && Wide(e)
    ensures AcceptEnvelope(c, pk, agora', e, current).Ok? <==>
              agora' == agora && e == signed && (current.Some? ==> current.value < signed.epoch)
  {
    hide VerifySignature, StatementDigest, StatementQueries, TwoChecks, ReducedCollisionFree, ChecksDistinct, FromId;
    AcceptedExactly(c, pk, agora', e, current);
    if SignedUnder(c, pk, agora', e) {
      OneMessage(c, pk, FromId(StatementDigest(c, agora, signed)), FromId(StatementDigest(c, agora', e)), e.signature, checks);
      StatementNames(c, agora, signed, agora', e, q);
    }
  }

  lemma OperatorSigns(c: Scheme, w: World)
    requires Primitives(c) && SignLaw(c) && Reachable(c, w) && w.s.epoch in w.s.history
    requires w.s.log.Some? ==> |w.s.log.value.entries| <= U64
    ensures PublicKey(c, w.s.statementSeed).Some?
    ensures SignedUnder(c, PublicKey(c, w.s.statementSeed).value, w.s.agora, EnvelopeOf(c, w.s))
    ensures Wide(EnvelopeOf(c, w.s))
  {
    hide Reachable, Core, Covered, Growing, VerifySignature, StatementParts, SentTo, InOrder, BodyOf, Bodies.Encoded, WellKept,
      SignLaw, Ephemeral;
    ReachableIsSound(c, w);
    SoundFloors(c, w);
    HeadInLog(c, w);
    SignedHere(c, w.s);
  }

  lemma SignedHere(c: Scheme, s: State)
    requires SignLaw(c) && PublicKey(c, s.statementSeed).Some? && s.epoch in s.history
    ensures SignedUnder(c, PublicKey(c, s.statementSeed).value, s.agora, EnvelopeOf(c, s))
  {
    hide VerifySignature, StatementParts, SentTo, InOrder, BodyOf, Bodies.Encoded;
  }

  lemma SoundFloors(c: Scheme, w: World)
    requires Sound(c, w)
    ensures w.s.epoch < U64
  {
    hide Core, Covered, Growing, GroundOf;
    CoreGoverned(c, w.s);
  }

  lemma HeadInLog(c: Scheme, w: World)
    requires Sound(c, w)
    ensures LatestHead(w.s).Some? ==> LatestHead(w.s).value.sequence < |w.s.log.value.entries|
  {
    hide Core, Covered, Growing, GroundOf, Conforms;
    if LatestHead(w.s).Some? {
      var log := w.s.log.value;
      assert log.heads[|log.heads| - 1] == HeadOf(c, log, |log.heads|);
    }
  }

  /** In every run, while the log's length fits a u64: of all envelopes that carry the signature the
      operator served its current one under, members that pinned its key accept exactly that one, in
      its own agora, and only while its epoch is past theirs. */
  lemma AcceptedIsServed(c: Scheme, w: World, agora: Bytes32, e: Envelope, current: Option<nat>, q: set<Query>, checks: set<Check>)
    requires Primitives(c) && SignLaw(c) && Reachable(c, w) && w.s.epoch in w.s.history
    requires w.s.log.Some? ==> |w.s.log.value.entries| <= U64
    requires PublicKey(c, w.s.statementSeed).Some? && e.signature == EnvelopeOf(c, w.s).signature && Wide(e)
    requires StatementQueries(c, w.s.agora, EnvelopeOf(c, w.s)) + StatementQueries(c, agora, e) <= q && ReducedCollisionFree(c, q)
    requires TwoChecks(c, PublicKey(c, w.s.statementSeed).value, FromId(StatementDigest(c, w.s.agora, EnvelopeOf(c, w.s))),
                       FromId(StatementDigest(c, agora, e)), e.signature) <= checks
    requires ChecksDistinct(c, checks)
    ensures AcceptEnvelope(c, PublicKey(c, w.s.statementSeed).value, agora, e, current).Ok? <==>
              agora == w.s.agora && e == EnvelopeOf(c, w.s) && (current.Some? ==> current.value < w.s.epoch)
  {
    hide Reachable, SignLaw, StatementDigest, StatementQueries, TwoChecks, ReducedCollisionFree, ChecksDistinct, FromId, SignedUnder,
      AcceptEnvelope, EnvelopeOf, PublicKey;
    OperatorSigns(c, w);
    EnvelopeEpoch(c, w.s);
    AcceptedIsSigned(c, PublicKey(c, w.s.statementSeed).value, w.s.agora, EnvelopeOf(c, w.s), agora, e, current, q, checks);
  }

  lemma EnvelopeEpoch(c: Scheme, s: State)
    requires s.epoch in s.history
    ensures EnvelopeOf(c, s).epoch == s.epoch
  {
    hide StatementDigest, SentTo, InOrder, BodyOf, Bodies.Encoded;
  }

  /** A fork is proved by two envelopes exactly when both would be accepted by someone without an
      epoch, under one epoch, saying different things. */
  lemma ForkIsTwoStatements(c: Scheme, pk: seq<byte>, agora: Bytes32, a: Envelope, b: Envelope)
    ensures EnvelopeEquivocation(c, pk, agora, a, b) <==>
              && AcceptEnvelope(c, pk, agora, a, None).Ok? && AcceptEnvelope(c, pk, agora, b, None).Ok?
              && a.epoch == b.epoch && StatementDigest(c, agora, a) != StatementDigest(c, agora, b)
  {
    hide VerifySignature, StatementDigest;
  }

  // ---- Heads ----

  /** Two heads that carry signatures of one kept log's own heads never prove a fork, whatever else
      they claim: a fork takes a signature the operator did not make in keeping its log. */
  lemma OwnHeadsNeverFork(c: Scheme, log: LogState, a: SignedHead, b: SignedHead, i: nat, j: nat, pk: seq<byte>,
                          q: set<Query>, checks: set<Check>)
    requires SignLaw(c) && Kept(c, log) && PublicKey(c, log.seed) == Some(pk) && |log.heads| <= U64
    requires i < |log.heads| && j < |log.heads| && a.signature == log.heads[i].signature && b.signature == log.heads[j].signature
    requires a.sequence < U64 && b.sequence < U64
    requires {HeadQuery(a), HeadQuery(b), HeadQuery(log.heads[i]), HeadQuery(log.heads[j])} <= q && ReducedCollisionFree(c, q)
    requires HeadChecks(c, pk, a, log.heads[i]) + HeadChecks(c, pk, b, log.heads[j]) <= checks && ChecksDistinct(c, checks)
    ensures HeadVerifies(c, a, pk) ==> a == log.heads[i]
    ensures HeadVerifies(c, b, pk) ==> b == log.heads[j]
    ensures !Equivocation(c, a, b, pk)
  {
    hide SignLaw, HeadVerifies, HeadChecks, ReducedCollisionFree, ChecksDistinct, PublicKey, HeadMessage, ChainOf;
    KeptVerifies(c, log);
    assert HeadCommits(c, log.entries, log.heads[i], pk) && HeadCommits(c, log.entries, log.heads[j], pk);
    assert log.heads[i] == HeadOf(c, log, i + 1) && log.heads[j] == HeadOf(c, log, j + 1);
    if HeadVerifies(c, a, pk) {
      HeadNames(c, a, log.heads[i], pk, q, checks);
    }
    if HeadVerifies(c, b, pk) {
      HeadNames(c, b, log.heads[j], pk, q, checks);
    }
  }

  function HeadQuery(h: SignedHead): Query {
    Query(TransparencyHead, [U64Bytes(h.sequence), h.head])
  }

  ghost function HeadChecks(c: Scheme, pk: seq<byte>, a: SignedHead, b: SignedHead): set<Check> {
    TwoChecks(c, pk, HeadMessage(c, a.sequence, a.head), HeadMessage(c, b.sequence, b.head), b.signature)
  }

  /** A head's signature names its sequence and digest. */
  lemma HeadNames(c: Scheme, a: SignedHead, b: SignedHead, pk: seq<byte>, q: set<Query>, checks: set<Check>)
    requires HeadVerifies(c, a, pk) && HeadVerifies(c, b, pk) && a.signature == b.signature && a.sequence < U64 && b.sequence < U64
    requires HeadQuery(a) in q && HeadQuery(b) in q && ReducedCollisionFree(c, q)
    requires HeadChecks(c, pk, a, b) <= checks && ChecksDistinct(c, checks)
    ensures a == b
  {
    hide VerifySignature, TwoChecks, ReducedCollisionFree, ChecksDistinct, ToLE;
    OneMessage(c, pk, HeadMessage(c, a.sequence, a.head), HeadMessage(c, b.sequence, b.head), a.signature, checks);
    ReducedNames(c, q, HeadQuery(a), HeadQuery(b));
    U64RoundTrip(a.sequence);
    U64RoundTrip(b.sequence);
    assert HeadQuery(a).parts[0] == HeadQuery(b).parts[0] && HeadQuery(a).parts[1] == HeadQuery(b).parts[1];
  }

  // ---- The head an envelope carries ----

  /** In every run of an agora with a log, the current envelope carries a head that commits to the
      whole log as it stands, signed under the log's key; without one it carries none. */
  lemma EnvelopeCarriesHead(c: Scheme, w: World)
    requires Primitives(c) && SignLaw(c) && Reachable(c, w) && w.s.epoch in w.s.history
    ensures EnvelopeOf(c, w.s).head.Some? <==> w.s.log.Some?
    ensures w.s.log.Some? ==>
              var (head, log) := (EnvelopeOf(c, w.s).head.value, w.s.log.value);
              && head.sequence + 1 == |log.entries| && head.head == ChainOf(c, log.entries)
              && PublicKey(c, log.seed).Some? && HeadVerifies(c, head, PublicKey(c, log.seed).value)
  {
    hide Reachable, Sound, SignLaw, EnvelopeOf, HeadVerifies, PublicKey, ChainOf, RootsDated, RecordRoots;
    EnvelopeHead(c, w.s);
    if w.s.log.Some? {
      ReachableIsSound(c, w);
      LogSeed(c, w);
      var log := w.s.log.value;
      RootsAreLogged(c, w, w.s.epoch);
      SomeEntry(log.entries, w.s.epoch, w.s.history[w.s.epoch]);
      KeptVerifies(c, log);
      assert HeadCommits(c, log.entries, log.heads[|log.heads| - 1], PublicKey(c, log.seed).value);
      assert log.heads[|log.heads| - 1] == HeadOf(c, log, |log.heads|);
      assert log.entries[..|log.entries|] == log.entries;
    }
  }

  lemma EnvelopeHead(c: Scheme, s: State)
    requires s.epoch in s.history
    ensures EnvelopeOf(c, s).head == LatestHead(s)
  {
    hide StatementDigest, SentTo, InOrder, BodyOf, Bodies.Encoded;
  }

  lemma LogSeed(c: Scheme, w: World)
    requires Sound(c, w) && w.s.log.Some?
    ensures Kept(c, w.s.log.value) && PublicKey(c, w.s.log.value.seed).Some?
  {
    hide Core, Covered, Growing, GroundOf, Conforms, Kept;
  }

  lemma SomeEntry(entries: seq<LogEntry>, e: nat, snap: Snapshot)
    requires RecordRoots(RootsDated(entries, e), e, snap)
    ensures |entries| > 0
  {
  }

  // ---- The first envelope of a new member ----

  lemma ArrivedPlace(c: Scheme, s: State, turn: Step, i: nat)
    requires Primitives(c) && Core(c, s) && Turns(c, s, turn) && i < |s.staged.admissions|
    ensures var s' := Apply(c, s, turn).0;
            s.staged.admissions[i].0 in s'.classes && s.staged.admissions[i].1 in s'.classes[s.staged.admissions[i].0].positions
  {
    hide Core, Apply, Boundary, Crossing, Welcomes;
    TurnRegisters(c, s, turn);
    CrossingIsBoundary(c, s, turn);
    CrossingStaged(s, turn);
    StagedPlaced(c, Crossing(s, turn).value, i);
  }

  /** A member the boundary registered under its own key is equipped by the envelope after it. */
  lemma RegisteredIsEquipped(c: Scheme, now: World, k: Bytes32, leaf: Bytes32, secret: Bytes32)
    requires Primitives(c) && SealLaw(c) && AgreementLaw(c) && Reachable(c, now)
    requires k in now.s.classes && leaf in now.s.classes[k].positions && leaf !in now.s.revokedLeaves
    requires Found(now.s.inboxes, leaf) == Some(InboxRecord(c.inboxPublic(secret), now.s.epoch))
    requires c.agree(Ephemeral(c, now.s), c.inboxPublic(secret)).Some?
    requires now.s.epoch in now.s.history && Bodies.Fits(BodyOf(c, now.s))
    ensures OwnCiphertext(c, now.s, k, leaf).Some?
    ensures Equipped(c, now.s, EnvelopeOf(c, now.s), k, leaf, secret, OwnCiphertext(c, now.s, k, leaf).value)
  {
    hide Reachable, Sound, Core, Equipped, Bodies.Fits, BodyOf, OwnCiphertext, EnvelopeOf, SealLaw, AgreementLaw, Ephemeral,
      LookupTagsDistinct, TagInputs, FirstUnderKey, SentTo, InOrder;
    ReachableIsSound(c, now);
    SoundIsCore(c, now);
    CoreGoverned(c, now.s);
    EnvelopeEquipsMembers(c, now, k, leaf, secret, {});
  }

  /** In every run: a leaf staged for a class and named an inbox key of its member's is equipped by
      the very first envelope after the boundary that lands it, unless that boundary revokes it: it
      has its ciphertext there, which its inbox secret opens. */
  lemma NewMemberIsEquipped(c: Scheme, start: OperatorSafety.Start, steps: seq<Step>, turn: Step, before: World, now: World,
                            k: Bytes32, leaf: Bytes32, secret: Bytes32)
    requires Primitives(c) && SealLaw(c) && AgreementLaw(c) && Founds(c, start)
    requires before == Run(c, Genesis(c, start), steps) && now == Run(c, Genesis(c, start), steps + [turn])
    requires Turns(c, before.s, turn) && (k, leaf) in before.s.staged.admissions && leaf !in now.s.revokedLeaves
    requires NamedBy(c, Genesis(c, start), steps, leaf) == Some(c.inboxPublic(secret))
    requires c.agree(Ephemeral(c, now.s), c.inboxPublic(secret)).Some?
    requires now.s.epoch in now.s.history && Bodies.Fits(BodyOf(c, now.s))
    ensures k in now.s.classes && leaf in now.s.classes[k].positions
    ensures OwnCiphertext(c, now.s, k, leaf).Some?
    ensures Equipped(c, now.s, EnvelopeOf(c, now.s), k, leaf, secret, OwnCiphertext(c, now.s, k, leaf).value)
  {
    hide Founds, Genesis, Sound, Core, Next, Turns, Run, InboxLive, NamedBy, Equipped, Bodies.Fits, BodyOf, OwnCiphertext, EnvelopeOf,
      SealLaw, AgreementLaw, Reregisters, Landed, Ephemeral, RegisteredBy, Apply, Welcomes;
    var w := Genesis(c, start);
    var i :| 0 <= i < |before.s.staged.admissions| && before.s.staged.admissions[i] == (k, leaf);
    assert leaf in Arriving(before.s.staged.admissions);
    assert steps + [turn] + [] == steps + [turn];
    AdmittedIsReached(c, start, steps, turn, [], leaf);
    GenesisSound(c, start);
    RunKeepsSound(c, w, steps);
    LastStep(c, w, steps, turn);
    SoundIsCore(c, before);
    ArrivedPlace(c, before.s, turn, i);
    TurnRegisters(c, before.s, turn);
    assert Reachable(c, now);
    RegisteredIsEquipped(c, now, k, leaf, secret);
  }

  lemma LastStep(c: Scheme, w: World, steps: seq<Step>, turn: Step)
    ensures Run(c, w, steps + [turn]).s == Apply(c, Run(c, w, steps).s, turn).0
  {
    hide Apply;
    assert (steps + [turn])[..|steps|] == steps;
  }
}
