/** Serving the current envelope twice in one epoch. */
module Redelivery {
  import opened Wrappers
  import opened Bytes
  import opened Crypto
  import opened Framing
  import opened Statements
  import opened Decisions
  import opened Inboxes
  import opened Operator
  import opened OperatorLayout
  import opened OperatorRuns
  import opened OperatorReceipts
  import opened OperatorLog
  import opened OperatorStanding
  import opened OperatorSafety
  import opened OperatorMembership
  import opened Bulletins
  import opened Log
  import OperatorServing
  import Bodies

  // ---- What a step does to what is served ----

  /** An inbox instruction the operator takes: proved, and naming the registered key to retire it, or
      a landed, unrevoked leaf to renew it. */
  predicate Instructs(c: Scheme, s: State, leaf: Bytes32, inbox: Bytes32, action: InboxAction, proof: StubProof<InboxWitness>) {
    && !s.dissolved && VerifyInbox(c, proof, InboxPublic(s.agora, leaf, inbox, action))
    && (action.Retire? ==> leaf in s.inboxes && s.inboxes[leaf].key == inbox)
    && (action.Renew? ==> Landed(s, leaf) && leaf !in s.revokedLeaves)
  }

  /** A key, if the boundary's agreement with it succeeds. */
  function Agreeing(c: Scheme, s: State, inbox: Bytes32): Option<Bytes32> {
    if c.agree(Ephemeral(c, s), inbox).Some? then Some(inbox) else None
  }

  /** The key a leaf would be delivered to under another horizon. */
  function DeliveryWithin(c: Scheme, s: State, leaf: Bytes32, horizon: nat): Option<Bytes32> {
    if leaf in s.revokedLeaves || leaf !in s.inboxes || s.epoch >= s.inboxes[leaf].since + horizon then None
    else Agreeing(c, s, s.inboxes[leaf].key)
  }

  /** The key a leaf is delivered to after a step, told before it: an accepted instruction for the
      leaf retires or replaces its key, an executed horizon decision lapses or revives it, and
      nothing else touches it. */
  function DeliveryAfter(c: Scheme, s: State, step: Step, leaf: Bytes32): Option<Bytes32> {
    match step
    case Certifying(named, inbox, action, proof) =>
      if named != leaf || !Instructs(c, s, named, inbox, action, proof) then DeliveryWithin(c, s, leaf, s.horizon)
      else if action.Retire? then None
      else Agreeing(c, s, inbox)
    case Executing(subject) =>
      if Executes(s, subject) && s.proposals[subject].decision.InboxHorizon?
      then DeliveryWithin(c, s, leaf, s.proposals[subject].decision.boundaries)
      else DeliveryWithin(c, s, leaf, s.horizon)
    case _ => DeliveryWithin(c, s, leaf, s.horizon)
  }

  /** A step between boundaries that adds to a live agora's log: an executed policy decision, where
      there is a log. */
  predicate Logs(s: State, step: Step) {
    s.log.Some? && step.Executing? && Executes(s, step.subject) && s.proposals[step.subject].decision.Policy?
  }

  /** A step that ends the agora. */
  predicate Dissolves(s: State, step: Step) {
    step.Executing? && Executes(s, step.subject) && s.proposals[step.subject].decision.Dissolution?
  }

  /** A step after which a live agora serves the same envelope: it crosses no boundary, ends
      nothing, logs nothing, and leaves every landed leaf the key it is delivered to. */
  ghost predicate Undisturbing(c: Scheme, s: State, step: Step) {
    && Crossing(s, step).None?
    && !Dissolves(s, step) && !Logs(s, step)
    && forall k, leaf :: k in s.classes && leaf in s.classes[k].positions ==>
         DeliveryAfter(c, s, step, leaf) == DeliveryWithin(c, s, leaf, s.horizon)
  }

  /** What asking for the current envelope gives. */
  function Served(c: Scheme, s: State): Result<Envelope> {
    if s.dissolved || s.epoch !in s.history then Err(Rejected) else Ok(EnvelopeOf(c, s))
  }

  /** Two live states of one epoch, apart from their registrations and log: one key pair, one body,
      and each class with the same leaves at the same positions. */
  ghost predicate SameServing(s: State, s': State) {
    && GroundOf(s') == GroundOf(s) && s'.tagSecret == s.tagSecret && s'.statementSeed == s.statementSeed
    && s'.classes.Keys == s.classes.Keys
    && forall k :: k in s.classes ==>
         && s'.classes[k].leaves == s.classes[k].leaves
         && s'.classes[k].positions == s.classes[k].positions
         && s'.classes[k].occupied == s.classes[k].occupied
  }

  lemma DeliveryNow(c: Scheme, s: State, leaf: Bytes32)
    requires leaf in s.inboxes ==> s.inboxes[leaf].since <= s.epoch
    ensures DeliveryKey(c, s, leaf) == DeliveryWithin(c, s, leaf, s.horizon)
  {
    hide EphemeralSecret;
  }

  lemma CertifyingServes(c: Scheme, s: State, named: Bytes32, inbox: Bytes32, action: InboxAction, proof: StubProof<InboxWitness>)
    ensures var s' := InboxCertificate(c, s, named, inbox, action, proof).0; SameServing(s, s') && s'.log == s.log
  {
    hide VerifyInbox, Landed, LeavesOf, VouchersOf;
  }

  /** What an inbox instruction does to each leaf's delivery. */
  lemma CertifyingDelivers(c: Scheme, s: State, named: Bytes32, inbox: Bytes32, action: InboxAction, proof: StubProof<InboxWitness>,
                           leaf: Bytes32)
    requires s.horizon >= 1 && (leaf in s.inboxes ==> s.inboxes[leaf].since <= s.epoch)
    ensures var s' := InboxCertificate(c, s, named, inbox, action, proof).0;
            && DeliveryKey(c, s', leaf) == DeliveryAfter(c, s, Certifying(named, inbox, action, proof), leaf)
            && SameServing(s, s') && s'.log == s.log
  {
    hide VerifyInbox, Landed, EphemeralSecret, SameServing;
    CertifyingServes(c, s, named, inbox, action, proof);
  }

  lemma StandingServes(s: State, s': State)
    requires GroundOf(s') == GroundOf(s) && StandingOf(s') == StandingOf(s)
    ensures SameServing(s, s') && s'.log == s.log && s'.horizon == s.horizon && s'.inboxes == s.inboxes
  {
    hide LeavesOf, VouchersOf;
  }

  /** A policy decision changes no leaf and no position, and logs its entry. */
  lemma PolicyServes(c: Scheme, s: State, subject: Bytes32, s': State)
    requires subject in s.proposals && s.proposals[subject].decision.Policy? && s.proposals[subject].decision.class_ in s.classes
    requires GroundOf(s') == GroundOf(s) && StandingOf(s') == StandingAfter(c, Consumed(s, subject), s.proposals[subject].decision)
    ensures SameServing(s, s') && SameRegistrations(s, s') && s'.horizon == s.horizon
    ensures s'.log == if s.log.Some? then Some(Appended(c, s.log.value, PolicyEntry(s, subject))) else s.log
  {
    hide Appended, LeavesOf, VouchersOf;
  }

  /** The same registrations and revocations, agreed with the same secret. */
  predicate SameRegistrations(s: State, s': State) {
    s'.inboxes == s.inboxes && s'.revokedLeaves == s.revokedLeaves && s'.epoch == s.epoch && s'.tagSecret == s.tagSecret && s'.agora == s.agora
  }

  lemma OtherServes(c: Scheme, s: State, subject: Bytes32, s': State)
    requires subject in s.proposals && !s.proposals[subject].decision.Policy? && !s.proposals[subject].decision.Dissolution?
    requires GroundOf(s') == GroundOf(s) && StandingOf(s') == StandingAfter(c, Consumed(s, subject), s.proposals[subject].decision)
    ensures SameServing(s, s') && SameRegistrations(s, s') && s'.log == s.log
    ensures s'.horizon == match s.proposals[subject].decision case InboxHorizon(boundaries) => boundaries case _ => s.horizon
  {
    hide LeavesOf, VouchersOf;
  }

  lemma DeliveryUnder(c: Scheme, s: State, s': State, leaf: Bytes32)
    requires SameRegistrations(s, s') && (leaf in s.inboxes ==> s.inboxes[leaf].since <= s.epoch)
    ensures DeliveryKey(c, s', leaf) == DeliveryWithin(c, s, leaf, s'.horizon)
  {
    hide EphemeralSecret;
  }

  lemma ExecutingDelivers(c: Scheme, s: State, subject: Bytes32, leaf: Bytes32)
    requires Primitives(c) && Core(c, s) && Crossing(s, Executing(subject)).None? && !Dissolves(s, Executing(subject))
    requires leaf in s.inboxes ==> s.inboxes[leaf].since <= s.epoch
    ensures var s' := Execute(c, s, subject).0;
            && DeliveryKey(c, s', leaf) == DeliveryAfter(c, s, Executing(subject), leaf)
            && SameServing(s, s')
            && s'.log == if Logs(s, Executing(subject)) then Some(Appended(c, s.log.value, PolicyEntry(s, subject))) else s.log
  {
    hide Core, Execute, Crossing, Appended, GroundOf, StandingOf, StandingAfter, SameServing, DeliveryKey, DeliveryWithin, PolicyEntry;
    var s' := Execute(c, s, subject).0;
    ExecuteStands(c, s, subject);
    ExecuteKeepsGround(c, s, subject);
    CoreGoverned(c, s);
    if Executes(s, subject) {
      assert ProposalOk(s.classes, s.proposals[subject]);
      if s.proposals[subject].decision.Policy? {
        PolicyServes(c, s, subject, s');
      } else {
        OtherServes(c, s, subject, s');
      }
    } else {
      GroundParts(s, s');
      StandingServes(s, s');
      SameSecrets(s, s');
    }
    DeliveryUnder(c, s, s', leaf);
  }

  lemma SameSecrets(s: State, s': State)
    requires GroundOf(s') == GroundOf(s) && StandingOf(s') == StandingOf(s)
    ensures SameRegistrations(s, s')
  {
    hide LeavesOf, VouchersOf;
  }

  /** The entry an executed policy decision logs. */
  function PolicyEntry(s: State, subject: Bytes32): LogEntry
    requires subject in s.proposals && s.proposals[subject].decision.Policy?
  {
    var k := s.proposals[subject].decision.class_;
    PolicyChanged(s.epoch, k, if k in s.classes then s.classes[k].version + 1 else 0)
  }

  /** What any step does to each leaf's delivery. */
  lemma StepDelivers(c: Scheme, s: State, step: Step, leaf: Bytes32)
    requires Primitives(c) && Core(c, s) && Crossing(s, step).None? && !Dissolves(s, step)
    requires leaf in s.inboxes ==> s.inboxes[leaf].since <= s.epoch
    ensures var s' := Apply(c, s, step).0;
            && DeliveryKey(c, s', leaf) == DeliveryAfter(c, s, step, leaf)
            && SameServing(s, s')
            && s'.log == if Logs(s, step) then Some(Appended(c, s.log.value, PolicyEntry(s, step.subject))) else s.log
  {
    hide Core, Crossing, Execute, InboxCertificate, Appended, GroundOf, SameServing, DeliveryKey, StandingOf, Dissolves;
    CoreGoverned(c, s);
    if step.Certifying? {
      CertifyingDelivers(c, s, step.leaf, step.inbox, step.action, step.instruction, leaf);
    } else if step.Executing? {
      ExecutingDelivers(c, s, step.subject, leaf);
    } else {
      QuietDelivers(c, s, step, leaf);
    }
  }

  lemma QuietDelivers(c: Scheme, s: State, step: Step, leaf: Bytes32)
    requires Primitives(c) && Core(c, s) && Crossing(s, step).None? && !step.Certifying? && !step.Executing?
    requires leaf in s.inboxes ==> s.inboxes[leaf].since <= s.epoch
    ensures DeliveryKey(c, Apply(c, s, step).0, leaf) == DeliveryAfter(c, s, step, leaf)
    ensures SameServing(s, Apply(c, s, step).0) && Apply(c, s, step).0.log == s.log
  {
    hide Core, Crossing, Apply, LeavesOf, VouchersOf, EphemeralSecret;
    StepStands(c, s, step);
    StepKeepsGround(c, s, step);
    GroundParts(s, Apply(c, s, step).0);
    StandingServes(s, Apply(c, s, step).0);
  }

  // ---- The same deliveries make the same list ----

  lemma SlotSame(c: Scheme, s: State, s': State, k: Bytes32, leaves: seq<Bytes32>, slot: (nat, Bytes32))
    requires SameServing(s, s') && slot.0 < |leaves| && DeliveryKey(c, s', slot.1) == DeliveryKey(c, s, slot.1)
    ensures CiphertextFor(c, s', k, leaves, slot) == CiphertextFor(c, s, k, leaves, slot)
  {
    hide DeliveryKey, TruncatedPath, OwnPlain, SealKey, LookupTag, Associated, BodyKeyOf, EphemeralSecret, CiphertextFor, LeavesOf, VouchersOf;
    CiphertextIs(c, s, k, leaves, slot);
    CiphertextIs(c, s', k, leaves, slot);
  }

  lemma {:induction false} SentSame(c: Scheme, s: State, s': State, k: Bytes32, leaves: seq<Bytes32>, slots: seq<(nat, Bytes32)>)
    requires SameServing(s, s')
    requires forall i :: 0 <= i < |slots| ==> slots[i].0 < |leaves| && DeliveryKey(c, s', slots[i].1) == DeliveryKey(c, s, slots[i].1)
    ensures Sent(c, s', k, leaves, slots) == Sent(c, s, k, leaves, slots)
  {
    hide DeliveryKey, CiphertextFor, SameServing;
    if |slots| > 0 {
      SentSame(c, s, s', k, leaves, slots[..|slots| - 1]);
      SlotSame(c, s, s', k, leaves, slots[|slots| - 1]);
    }
  }

  /** Every landed leaf is delivered to under the same key in both. */
  ghost predicate SameDeliveries(c: Scheme, s: State, s': State) {
    forall k, leaf :: k in s.classes && leaf in s.classes[k].positions ==> DeliveryKey(c, s', leaf) == DeliveryKey(c, s, leaf)
  }

  lemma ClassSame(c: Scheme, s: State, s': State, k: Bytes32)
    requires SameServing(s, s') && SameDeliveries(c, s, s') && k in s.classes && ClassOk(c, s.classes[k])
    ensures Sent(c, s', k, s'.classes[k].leaves, ByPosition(s'.classes[k])) == Sent(c, s, k, s.classes[k].leaves, ByPosition(s.classes[k]))
  {
    hide DeliveryKey, ByPosition, ClassOk, Sent, GroundOf;
    var cs, slots := s.classes[k], ByPosition(s.classes[k]);
    forall i | 0 <= i < |slots| ensures slots[i].0 < |cs.leaves| && slots[i].1 in cs.positions {
      SlotIsLanded(c, cs, i);
      SlotInTree(c, cs, i);
    }
    SlotsSame(cs, s'.classes[k]);
    SentSame(c, s, s', k, cs.leaves, slots);
  }

  lemma SlotsSame(cs: ClassState, cs': ClassState)
    requires cs'.leaves == cs.leaves && cs'.occupied == cs.occupied
    ensures ByPosition(cs') == ByPosition(cs)
  {
  }

  lemma {:induction false} SentToSame(c: Scheme, s: State, s': State, ids: seq<Bytes32>)
    requires SameServing(s, s') && SameDeliveries(c, s, s') && ClassesOk(c, s.classes)
    ensures SentTo(c, s', ids) == SentTo(c, s, ids)
  {
    hide SameDeliveries, ClassesOk, ClassOk, Sent, ByPosition, GroundOf;
    if |ids| > 0 {
      SentToSame(c, s, s', ids[..|ids| - 1]);
      if ids[|ids| - 1] in s.classes {
        ClassIn(c, s.classes, ids[|ids| - 1]);
        ClassSame(c, s, s', ids[|ids| - 1]);
      }
    }
  }

  // ---- Different deliveries make different lists ----

  /** One sealing: the derivation its key came from, what it was bound to, what it sealed. */
  datatype SealInput = SealInput(key: Derivation, associated: Bytes32, plain: seq<byte>)

  /** Two sealings whose outputs collide. */
  predicate SealClash(c: Scheme, a: SealInput, b: SealInput) {
    a != b && c.seal(Derived(c, a.key), a.associated, a.plain) == c.seal(Derived(c, b.key), b.associated, b.plain)
  }

  ghost predicate SealsDistinct(c: Scheme, q: set<SealInput>) {
    forall a, b {:trigger SealClash(c, a, b)} :: a in q && b in q ==> !SealClash(c, a, b)
  }

  function SealInputOf(c: Scheme, s: State, k: Bytes32, position: nat, inbox: Bytes32): SealInput
    requires k in s.classes && c.agree(Ephemeral(c, s), inbox).Some?
  {
    SealInput(
      Derivation(InboxSeal, c.agree(Ephemeral(c, s), inbox).value, SealContext(c.inboxPublic(Ephemeral(c, s)), inbox, k)),
      Associated(c, s.agora, s.epoch),
      OwnPlain(BodyKeyOf(c, s.tagSecret, s.agora, s.epoch), position, TruncatedPath(c, s.classes[k].leaves, position)))
  }

  /** Everything sealed to members in the current envelope. */
  ghost function SealInputs(c: Scheme, s: State): set<SealInput> {
    set k, leaf | k in s.classes && leaf in s.classes[k].positions && DeliveryKey(c, s, leaf).Some? ::
      SealInputOf(c, s, k, s.classes[k].positions[leaf], DeliveryKey(c, s, leaf).value)
  }

  lemma SealedBytes(c: Scheme, s: State, k: Bytes32, position: nat, inbox: Bytes32)
    requires k in s.classes && c.agree(Ephemeral(c, s), inbox).Some?
    ensures var x := SealInputOf(c, s, k, position, inbox);
            CiphertextTo(c, s, k, s.classes[k].leaves, position, inbox).bytes == c.seal(Derived(c, x.key), x.associated, x.plain)
  {
    hide OwnPlain, TruncatedPath, BodyKeyOf, EphemeralSecret, SealContext, Associated, LookupTag;
  }

  lemma InputNames(c: Scheme, s: State, s': State, k: Bytes32, position: nat, inbox: Bytes32, k': Bytes32, position': nat, inbox': Bytes32)
    requires SameServing(s, s') && k in s.classes && k' in s'.classes && position < U64 && position' < U64
    requires c.agree(Ephemeral(c, s), inbox).Some? && c.agree(Ephemeral(c, s'), inbox').Some?
    requires SealInputOf(c, s, k, position, inbox) == SealInputOf(c, s', k', position', inbox')
    ensures k == k' && position == position' && inbox == inbox'
  {
    hide OwnPlain, TruncatedPath, BodyKeyOf, EphemeralSecret, SealContext, Associated, LeavesOf, VouchersOf;
    ContextParts(c.inboxPublic(Ephemeral(c, s)), inbox, k, inbox', k');
    var bodyKey := BodyKeyOf(c, s.tagSecret, s.agora, s.epoch);
    PlainPosition(bodyKey, position, TruncatedPath(c, s.classes[k].leaves, position));
    PlainPosition(bodyKey, position', TruncatedPath(c, s'.classes[k'].leaves, position'));
  }

  /** A leaf delivered to in one of two equal lists is delivered to in the other, under the same
      key. */
  lemma ListedInBoth(c: Scheme, s: State, s': State, ids: seq<Bytes32>, k: Bytes32, leaf: Bytes32, q: set<SealInput>)
    requires Primitives(c) && SameServing(s, s') && ClassesOk(c, s.classes) && ClassesOk(c, s'.classes)
    requires SealInputs(c, s) <= q && SealInputs(c, s') <= q && SealsDistinct(c, q)
    requires k in ids && k in s.classes && leaf in s.classes[k].positions && DeliveryKey(c, s, leaf).Some?
    requires SentTo(c, s', ids) == SentTo(c, s, ids)
    ensures DeliveryKey(c, s', leaf) == DeliveryKey(c, s, leaf)
  {
    hide DeliveryKey, ClassesOk, ClassOk, SentTo, Sent, ByPosition, SealsDistinct, SealInputs, SameServing, SealInputOf, CiphertextFor;
    ClassIn(c, s.classes, k);
    var cs, inbox := s.classes[k], DeliveryKey(c, s, leaf).value;
    OwnIs(c, s, k, leaf);
    OwnIsListed(c, s, ids, k, leaf);
    var x := CiphertextTo(c, s, k, cs.leaves, cs.positions[leaf], inbox);
    SentToOnly(c, s', ids, x);
    var k', leaf' :| Addressed(c, s', x, k', leaf') && leaf' !in s'.revokedLeaves;
    ClassIn(c, s'.classes, k');
    AddressedIs(c, s', x, k', leaf');
    SealedBytes(c, s, k, cs.positions[leaf], inbox);
    SealedBytes(c, s', k', s'.classes[k'].positions[leaf'], DeliveryKey(c, s', leaf').value);
    SameInput(c, s, k, leaf, s', k', leaf', q);
    InputNames(c, s, s', k, cs.positions[leaf], inbox, k', s'.classes[k'].positions[leaf'], DeliveryKey(c, s', leaf').value);
    SamePlace(c, s, s', k, leaf, leaf');
  }

  lemma AddressedIs(c: Scheme, s: State, x: Ciphertext, k: Bytes32, leaf: Bytes32)
    requires Primitives(c) && Addressed(c, s, x, k, leaf) && ClassOk(c, s.classes[k])
    ensures DeliveryKey(c, s, leaf).Some? && s.classes[k].positions[leaf] < U64
    ensures x == CiphertextTo(c, s, k, s.classes[k].leaves, s.classes[k].positions[leaf], DeliveryKey(c, s, leaf).value)
  {
    hide DeliveryKey, CiphertextTo, CiphertextFor, ClassOk;
    DeliveredHas(c, s, k, leaf);
    OwnIs(c, s, k, leaf);
  }

  lemma OwnIsListed(c: Scheme, s: State, ids: seq<Bytes32>, k: Bytes32, leaf: Bytes32)
    requires k in ids && k in s.classes && ClassOk(c, s.classes[k]) && leaf in s.classes[k].positions && OwnCiphertext(c, s, k, leaf).Some?
    ensures OwnCiphertext(c, s, k, leaf).value in SentTo(c, s, ids)
  {
    hide ClassOk, SentTo, Sent, ByPosition, CiphertextFor;
    var cs := s.classes[k];
    LandedSlot(c, cs, leaf);
    SentHas(c, s, k, cs.leaves, ByPosition(cs), cs.positions[leaf] / 2);
    SentToHas(c, s, ids, k, OwnCiphertext(c, s, k, leaf).value);
  }

  lemma SameInput(c: Scheme, s: State, k: Bytes32, leaf: Bytes32, s': State, k': Bytes32, leaf': Bytes32, q: set<SealInput>)
    requires SealInputs(c, s) <= q && SealInputs(c, s') <= q && SealsDistinct(c, q)
    requires k in s.classes && leaf in s.classes[k].positions && DeliveryKey(c, s, leaf).Some?
    requires k' in s'.classes && leaf' in s'.classes[k'].positions && DeliveryKey(c, s', leaf').Some?
    requires var a := SealInputOf(c, s, k, s.classes[k].positions[leaf], DeliveryKey(c, s, leaf).value);
             var b := SealInputOf(c, s', k', s'.classes[k'].positions[leaf'], DeliveryKey(c, s', leaf').value);
             c.seal(Derived(c, a.key), a.associated, a.plain) == c.seal(Derived(c, b.key), b.associated, b.plain)
    ensures SealInputOf(c, s, k, s.classes[k].positions[leaf], DeliveryKey(c, s, leaf).value)
         == SealInputOf(c, s', k', s'.classes[k'].positions[leaf'], DeliveryKey(c, s', leaf').value)
  {
    hide DeliveryKey, SealInputOf, Derived;
    var a := SealInputOf(c, s, k, s.classes[k].positions[leaf], DeliveryKey(c, s, leaf).value);
    var b := SealInputOf(c, s', k', s'.classes[k'].positions[leaf'], DeliveryKey(c, s', leaf').value);
    assert a in SealInputs(c, s) && b in SealInputs(c, s');
    assert !SealClash(c, a, b);
  }

  lemma SamePlace(c: Scheme, s: State, s': State, k: Bytes32, leaf: Bytes32, leaf': Bytes32)
    requires SameServing(s, s') && k in s.classes && ClassOk(c, s.classes[k])
    requires leaf in s.classes[k].positions && leaf' in s'.classes[k].positions
    requires s.classes[k].positions[leaf] == s'.classes[k].positions[leaf']
    ensures leaf == leaf'
  {
    hide GroundOf;
  }

  lemma SameListSameDeliveries(c: Scheme, s: State, s': State, q: set<SealInput>)
    requires Primitives(c) && SameServing(s, s') && ClassesOk(c, s.classes) && ClassesOk(c, s'.classes)
    requires SealInputs(c, s) <= q && SealInputs(c, s') <= q && SealsDistinct(c, q)
    requires SentTo(c, s', InOrder(s'.classes.Keys)) == SentTo(c, s, InOrder(s.classes.Keys))
    ensures SameDeliveries(c, s, s')
  {
    hide DeliveryKey, ClassesOk, SentTo, SealsDistinct, SealInputs, InOrder;
    forall k, leaf | k in s.classes && leaf in s.classes[k].positions ensures DeliveryKey(c, s', leaf) == DeliveryKey(c, s, leaf) {
      InOrderHas(s.classes.Keys, k);
      SameBackwards(s, s');
      if DeliveryKey(c, s, leaf).Some? {
        ListedInBoth(c, s, s', InOrder(s.classes.Keys), k, leaf, q);
      } else if DeliveryKey(c, s', leaf).Some? {
        ListedInBoth(c, s', s, InOrder(s.classes.Keys), k, leaf, q);
      }
    }
  }

  lemma SameBackwards(s: State, s': State)
    requires SameServing(s, s')
    ensures SameServing(s', s)
  {
    hide GroundOf;
  }

  // ---- Served again ----

  /** The envelope's other parts are the same throughout an epoch. */
  lemma RestIsSame(c: Scheme, s: State, s': State)
    requires SameServing(s, s') && s.epoch in s.history
    ensures s'.epoch in s'.history
    ensures EnvelopeOf(c, s').body == EnvelopeOf(c, s).body && EnvelopeOf(c, s').ephemeralKey == EnvelopeOf(c, s).ephemeralKey
    ensures EnvelopeOf(c, s').epoch == EnvelopeOf(c, s).epoch
    ensures EnvelopeOf(c, s') == EnvelopeOf(c, s) <==>
              SentTo(c, s', InOrder(s'.classes.Keys)) == SentTo(c, s, InOrder(s.classes.Keys)) && LatestHead(s') == LatestHead(s)
  {
    hide SentTo, InOrder, LatestHead, Bodies.Encoded, RootPairs, StatementDigest, LeavesOf, VouchersOf;
  }

  /** The head of a log with one more entry is another head: its sequence differs in its lowest
      byte. */
  lemma HeadMoves(c: Scheme, s: State, s': State, entry: LogEntry)
    requires s.log.Some? && Kept(c, s.log.value) && s'.log == Some(Appended(c, s.log.value, entry))
    ensures HeadParts(LatestHead(s')) != HeadParts(LatestHead(s)) && LatestHead(s') != LatestHead(s)
  {
    hide ChainStep, HeadMessage;
    var n := |s.log.value.entries|;
    assert LatestHead(s').value.sequence == n;
    if n > 0 {
      assert s.log.value.heads[n - 1] == HeadOf(c, s.log.value, n);
      assert U64Bytes(n)[0] == n % 256 && U64Bytes(n - 1)[0] == (n - 1) % 256;
      assert HeadParts(LatestHead(s'))[1] == U64Bytes(n) && HeadParts(LatestHead(s))[1] == U64Bytes(n - 1);
    } else {
      assert |HeadParts(LatestHead(s))| == 1 && |HeadParts(LatestHead(s'))| == 4;
    }
  }

  lemma LoggedIsKept(c: Scheme, w: World)
    requires Sound(c, w)
    ensures w.s.log.Some? ==> Kept(c, w.s.log.value)
    ensures Core(c, w.s) && ClassesOk(c, w.s.classes)
  {
    hide Core, Covered, GroundOf, Growing, ClassesOk, Kept;
    CoreLayout(c, w.s);
  }

  /** What a reachable world's step does to what is served. */
  lemma StepServes(c: Scheme, w: World, step: Step)
    requires Primitives(c) && Reachable(c, w) && Crossing(w.s, step).None? && !Dissolves(w.s, step)
    ensures var s' := Apply(c, w.s, step).0;
            && SameServing(w.s, s') && ClassesOk(c, w.s.classes) && ClassesOk(c, s'.classes)
            && (if Logs(w.s, step) then HeadParts(LatestHead(s')) != HeadParts(LatestHead(w.s)) && LatestHead(s') != LatestHead(w.s)
                else s'.log == w.s.log)
            && (SameDeliveries(c, w.s, s') <==>
                  forall k, leaf :: k in w.s.classes && leaf in w.s.classes[k].positions ==>
                    DeliveryAfter(c, w.s, step, leaf) == DeliveryWithin(c, w.s, leaf, w.s.horizon))
  {
    hide Reachable, Core, Crossing, Apply, ClassesOk, SameServing, DeliveryKey, DeliveryAfter, DeliveryWithin, Appended, LatestHead, HeadParts,
      Dissolves, Kept, Sound;
    var s, s' := w.s, Apply(c, w.s, step).0;
    ReachableIsSound(c, w);
    LoggedIsKept(c, w);
    OperatorServing.ReachableIsServed(c, w);
    StepKeepsCore(c, s, step);
    CoreLayout(c, s');
    forall leaf
      ensures DeliveryKey(c, s', leaf) == DeliveryAfter(c, s, step, leaf)
      ensures DeliveryKey(c, s, leaf) == DeliveryWithin(c, s, leaf, s.horizon)
    {
      StepDelivers(c, s, step, leaf);
      DeliveryNow(c, s, leaf);
    }
    StepDelivers(c, s, step, ZERO32);
    if Logs(s, step) {
      HeadMoves(c, s, s', PolicyEntry(s, step.subject));
    }
  }

  lemma CrossingTurns(c: Scheme, w: World, step: Step)
    requires Primitives(c) && Reachable(c, w) && Crossing(w.s, step).Some?
    ensures Apply(c, w.s, step).0.epoch == w.s.epoch + 1
  {
    hide Reachable, Core, Crossing, Apply, Sound;
    ReachableIsSound(c, w);
    LoggedIsKept(c, w);
    StepEpoch(c, w.s, step);
  }

  lemma DissolvingEnds(c: Scheme, s: State, step: Step)
    requires Dissolves(s, step)
    ensures Apply(c, s, step).0.dissolved
  {
    hide Appended, ActivatePolicy, AdvanceEpoch;
  }

  /** Only dissolution ends an agora. */
  lemma OnlyDissolvingEnds(c: Scheme, s: State, step: Step)
    requires Primitives(c) && Core(c, s) && Crossing(s, step).None? && !Dissolves(s, step) && !s.dissolved
    ensures !Apply(c, s, step).0.dissolved
  {
    hide Core, Crossing, Appended, Execute, InboxCertificate, StandingOf, StandingAfter;
    if step.Executing? {
      ExecuteStands(c, s, step.subject);
      ExecutedLives(c, s, step.subject);
    } else if step.Certifying? {
      CertifyingLives(c, s, step.leaf, step.inbox, step.action, step.instruction);
    } else {
      hide Apply;
      StepStands(c, s, step);
      SameLife(s, Apply(c, s, step).0);
    }
  }

  lemma SameLife(s: State, s': State)
    requires StandingOf(s') == StandingOf(s)
    ensures s'.dissolved == s.dissolved
  {
  }

  lemma ExecutedLives(c: Scheme, s: State, subject: Bytes32)
    requires !s.dissolved && !Dissolves(s, Executing(subject))
    requires StandingOf(Execute(c, s, subject).0)
          == if Executes(s, subject) then StandingAfter(c, Consumed(s, subject), s.proposals[subject].decision) else StandingOf(s)
    ensures !Execute(c, s, subject).0.dissolved
  {
    hide Execute, Appended;
  }

  lemma CertifyingLives(c: Scheme, s: State, leaf: Bytes32, inbox: Bytes32, action: InboxAction, proof: StubProof<InboxWitness>)
    ensures InboxCertificate(c, s, leaf, inbox, action, proof).0.dissolved == s.dissolved
  {
    hide VerifyInbox, Landed;
  }

  /** What is served before and after a live step that ends nothing. */
  lemma BothServed(c: Scheme, w: World, step: Step)
    requires Primitives(c) && Reachable(c, w) && !w.s.dissolved && !Dissolves(w.s, step) && Crossing(w.s, step).None?
    ensures w.s.epoch in w.s.history && Apply(c, w.s, step).0.epoch in Apply(c, w.s, step).0.history
    ensures !Apply(c, w.s, step).0.dissolved
  {
    hide Reachable, Core, Crossing, Apply, Sound, Dissolves, SnapshotOf, GroundOf;
    ReachableIsSound(c, w);
    LoggedIsKept(c, w);
    HistoryIsNow(c, w);
    OnlyDissolvingEnds(c, w.s, step);
    StepKeepsGround(c, w.s, step);
    GroundParts(w.s, Apply(c, w.s, step).0);
  }

  lemma CrossedServes(c: Scheme, w: World, step: Step)
    requires Primitives(c) && Reachable(c, w) && !w.s.dissolved
    requires Served(c, Apply(c, w.s, step).0) == Served(c, w.s)
    ensures Crossing(w.s, step).None?
  {
    hide Reachable, Crossing, Apply, SnapshotOf, SentTo, BodyOf, StatementDigest, Bodies.Encoded, InOrder;
    HistoryIsNow(c, w);
    if Crossing(w.s, step).Some? {
      CrossingTurns(c, w, step);
    }
  }

  /** The served envelopes are one value exactly when list and head are. */
  lemma ServedSame(c: Scheme, s: State, s': State)
    requires SameServing(s, s') && s.epoch in s.history && !s.dissolved && !s'.dissolved
    ensures Served(c, s') == Served(c, s) <==>
              SentTo(c, s', InOrder(s'.classes.Keys)) == SentTo(c, s, InOrder(s.classes.Keys)) && LatestHead(s') == LatestHead(s)
  {
    hide SameServing, SentTo, InOrder, LatestHead, BodyOf, StatementDigest, Bodies.Encoded;
    RestIsSame(c, s, s');
  }

  /** An envelope served again after a step, exactly: in every run a live agora serves the same value
      if and only if the step crosses no boundary, ends and logs nothing, and leaves each landed leaf
      the key it is delivered to; the only-if half up to a listed collision of sealings. */
  lemma ServedAgain(c: Scheme, w: World, step: Step, q: set<SealInput>)
    requires Primitives(c) && Reachable(c, w) && !w.s.dissolved
    ensures var s' := Apply(c, w.s, step).0;
            && (Undisturbing(c, w.s, step) ==> Served(c, s') == Served(c, w.s))
            && (SealInputs(c, w.s) <= q && SealInputs(c, s') <= q && SealsDistinct(c, q) ==>
                  (Served(c, s') == Served(c, w.s) ==> Undisturbing(c, w.s, step)))
  {
    hide Reachable, Crossing, Apply, ClassesOk, SameServing, SameDeliveries, DeliveryAfter, DeliveryWithin, LatestHead, HeadParts, Dissolves,
      Logs, SentTo, InOrder, SealInputs, SealsDistinct, EnvelopeOf;
    var s, s' := w.s, Apply(c, w.s, step).0;
    if Served(c, s') == Served(c, s) {
      CrossedServes(c, w, step);
    }
    if Crossing(s, step).None? {
      if Dissolves(s, step) {
        DissolvingEnds(c, s, step);
        NowServed(c, w);
      } else {
        BothServed(c, w, step);
        StepServes(c, w, step);
        ServedSame(c, s, s');
        HeadFromLog(s, s');
        if SameDeliveries(c, s, s') {
          SentToSame(c, s, s', InOrder(s.classes.Keys));
          KeysSame(s, s');
        } else if SealInputs(c, s) <= q && SealInputs(c, s') <= q && SealsDistinct(c, q)
                  && SentTo(c, s', InOrder(s'.classes.Keys)) == SentTo(c, s, InOrder(s.classes.Keys)) {
          SameListSameDeliveries(c, s, s', q);
        }
      }
    }
  }

  lemma NowServed(c: Scheme, w: World)
    requires Primitives(c) && Reachable(c, w) && !w.s.dissolved
    ensures Served(c, w.s).Ok?
  {
    hide Reachable, SnapshotOf, EnvelopeOf;
    HistoryIsNow(c, w);
  }

  lemma HeadFromLog(s: State, s': State)
    ensures s'.log == s.log ==> LatestHead(s') == LatestHead(s)
  {
  }

  lemma KeysSame(s: State, s': State)
    requires SameServing(s, s')
    ensures s'.classes.Keys == s.classes.Keys
  {
  }

  // ---- Any two servings of one epoch ----

  /** No step of a run ends the agora. */
  ghost predicate NoneDissolves(c: Scheme, w: World, steps: seq<Step>) {
    forall i :: 0 <= i < |steps| ==> !Dissolves(Run(c, w, steps[..i]).s, steps[i])
  }

  /** No step of a run adds to the log. */
  ghost predicate NoneLogs(c: Scheme, w: World, steps: seq<Step>) {
    forall i :: 0 <= i < |steps| ==> !Logs(Run(c, w, steps[..i]).s, steps[i])
  }

  lemma NoneBefore(c: Scheme, w: World, steps: seq<Step>)
    requires |steps| > 0
    ensures NoneDissolves(c, w, steps) <==>
              NoneDissolves(c, w, steps[..|steps| - 1]) && !Dissolves(Run(c, w, steps[..|steps| - 1]).s, steps[|steps| - 1])
    ensures NoneLogs(c, w, steps) <==>
              NoneLogs(c, w, steps[..|steps| - 1]) && !Logs(Run(c, w, steps[..|steps| - 1]).s, steps[|steps| - 1])
  {
    hide Run, Dissolves, Logs;
    var init := steps[..|steps| - 1];
    assert forall i :: 0 <= i < |init| ==> init[..i] == steps[..i] && init[i] == steps[i];
  }

  function LogLength(s: State): nat {
    if s.log.None? then 0 else |s.log.value.entries|
  }

  lemma SameServingOnward(s: State, s': State, s'': State)
    requires SameServing(s, s') && SameServing(s', s'')
    ensures SameServing(s, s'')
  {
    hide GroundOf;
  }

  /** One live step's part: the log as it was, or one entry longer. */
  lemma StepLogs(c: Scheme, w: World, step: Step)
    requires Primitives(c) && Reachable(c, w) && Crossing(w.s, step).None? && !Dissolves(w.s, step)
    ensures if Logs(w.s, step) then LogLength(Apply(c, w.s, step).0) == LogLength(w.s) + 1 else Apply(c, w.s, step).0.log == w.s.log
  {
    hide Reachable, Core, Crossing, Apply, Dissolves, Sound, DeliveryAfter, DeliveryKey, SameServing, ChainStep, HeadMessage;
    ReachableIsSound(c, w);
    LoggedIsKept(c, w);
    OperatorServing.ReachableIsServed(c, w);
    StepDelivers(c, w.s, step, ZERO32);
  }

  /** A run within one epoch that ends nothing keeps everything served but registrations and log,
      and a log that is added to is longer. */
  lemma {:induction false} RunServes(c: Scheme, w: World, steps: seq<Step>)
    requires Primitives(c) && Reachable(c, w) && !w.s.dissolved
    requires Run(c, w, steps).s.epoch == w.s.epoch && NoneDissolves(c, w, steps)
    ensures SameServing(w.s, Run(c, w, steps).s) && !Run(c, w, steps).s.dissolved
    ensures if NoneLogs(c, w, steps) then Run(c, w, steps).s.log == w.s.log else LogLength(Run(c, w, steps).s) > LogLength(w.s)
  {
    hide Reachable, Core, Crossing, Apply, Dissolves, Logs, Sound, NoneDissolves, NoneLogs, SameServing, Next;
    if |steps| > 0 {
      var init, step := steps[..|steps| - 1], steps[|steps| - 1];
      var before := Run(c, w, init);
      NoneBefore(c, w, steps);
      RunReachable(c, w, init);
      EpochBetween(c, w, init, step);
      RunServes(c, w, init);
      NextFields(c, before, step);
      StepServes(c, before, step);
      StepLogs(c, before, step);
      BothServed(c, before, step);
      SameServingOnward(w.s, before.s, Run(c, w, steps).s);
    } else {
      SameServingSelf(w.s);
      NothingLogged(c, w);
    }
  }

  lemma NothingLogged(c: Scheme, w: World)
    ensures NoneLogs(c, w, [])
  {
  }

  lemma SameServingSelf(s: State)
    ensures SameServing(s, s)
  {
  }

  lemma EpochBetween(c: Scheme, w: World, init: seq<Step>, step: Step)
    requires Primitives(c) && Reachable(c, w) && Next(c, Run(c, w, init), step).s.epoch == w.s.epoch
    ensures Run(c, w, init).s.epoch == w.s.epoch && Crossing(Run(c, w, init).s, step).None?
  {
    hide Reachable, Core, Crossing, Apply, Sound, Next;
    ReachableIsSound(c, w);
    RunIsLater(c, w, init);
    RunReachable(c, w, init);
    NextFields(c, Run(c, w, init), step);
    if Crossing(Run(c, w, init).s, step).Some? {
      CrossingTurns(c, Run(c, w, init), step);
    } else {
      ReachableIsSound(c, Run(c, w, init));
      LoggedIsKept(c, Run(c, w, init));
      StepEpoch(c, Run(c, w, init).s, step);
    }
  }

  /** An agora that ended during a run has ended after it. */
  lemma EndedStays(c: Scheme, w: World, steps: seq<Step>)
    requires Primitives(c) && Reachable(c, w) && !NoneDissolves(c, w, steps)
    ensures Run(c, w, steps).s.dissolved
  {
    hide Reachable, Core, Sound, Next, Run, Dissolves;
    var i :| 0 <= i < |steps| && Dissolves(Run(c, w, steps[..i]).s, steps[i]);
    var before, after := Run(c, w, steps[..i]), Next(c, Run(c, w, steps[..i]), steps[i]);
    DissolvingEnds(c, before.s, steps[i]);
    NextFields(c, before, steps[i]);
    NextIsRun(c, before, steps[i]);
    RunAppends(c, w, steps[..i], [steps[i]]);
    RunAppends(c, w, steps[..i] + [steps[i]], steps[i + 1..]);
    assert steps == steps[..i] + [steps[i]] + steps[i + 1..];
    RunReachable(c, w, steps[..i] + [steps[i]]);
    ReachableIsSound(c, after);
    RunIsLater(c, after, steps[i + 1..]);
  }

  /** A longer log ends in another head. */
  lemma LongerHead(c: Scheme, s: State, s': State)
    requires s.log.Some? ==> Kept(c, s.log.value)
    requires s'.log.Some? && Kept(c, s'.log.value) && LogLength(s') > LogLength(s)
    ensures LatestHead(s').Some? && LatestHead(s').value.sequence == LogLength(s') - 1
    ensures LatestHead(s).Some? ==> LatestHead(s).value.sequence < LogLength(s)
    ensures LatestHead(s') != LatestHead(s)
  {
    hide ChainOf, HeadMessage;
    assert s'.log.value.heads[LogLength(s') - 1] == HeadOf(c, s'.log.value, LogLength(s'));
    if LatestHead(s).Some? {
      assert s.log.value.heads[LogLength(s) - 1] == HeadOf(c, s.log.value, LogLength(s));
    }
  }

  lemma KeptAcross(c: Scheme, w: World, steps: seq<Step>)
    requires Primitives(c) && Reachable(c, w)
    ensures w.s.log.Some? ==> Kept(c, w.s.log.value)
    ensures Run(c, w, steps).s.log.Some? ==> Kept(c, Run(c, w, steps).s.log.value)
    ensures ClassesOk(c, w.s.classes) && ClassesOk(c, Run(c, w, steps).s.classes)
    ensures !w.s.dissolved ==> Served(c, w.s).Ok?
    ensures !Run(c, w, steps).s.dissolved ==> Served(c, Run(c, w, steps).s).Ok?
  {
    hide Reachable, Core, Sound, Next, Run, Kept, ClassesOk, EnvelopeOf;
    RunReachable(c, w, steps);
    ReachableIsSound(c, w);
    ReachableIsSound(c, Run(c, w, steps));
    LoggedIsKept(c, w);
    LoggedIsKept(c, Run(c, w, steps));
    if !w.s.dissolved {
      NowServed(c, w);
    }
    if !Run(c, w, steps).s.dissolved {
      NowServed(c, Run(c, w, steps));
    }
  }

  /** What makes two servings the same: one epoch, nothing ended or logged in between, and every
      landed leaf delivered to under the same key at both. */
  ghost predicate SameAtBoth(c: Scheme, w: World, steps: seq<Step>) {
    && Run(c, w, steps).s.epoch == w.s.epoch
    && NoneDissolves(c, w, steps) && NoneLogs(c, w, steps)
    && SameDeliveries(c, w.s, Run(c, w, steps).s)
  }

  /** List and head are the same at both ends, exactly then. */
  lemma ContentsAcross(c: Scheme, w: World, steps: seq<Step>, q: set<SealInput>)
    requires Primitives(c) && Reachable(c, w) && !w.s.dissolved
    requires Run(c, w, steps).s.epoch == w.s.epoch && NoneDissolves(c, w, steps)
    ensures var s, s' := w.s, Run(c, w, steps).s;
            && (NoneLogs(c, w, steps) ==> LatestHead(s') == LatestHead(s))
            && (!NoneLogs(c, w, steps) ==>
                  && LatestHead(s') != LatestHead(s)
                  && LatestHead(s').Some? && LatestHead(s').value.sequence == LogLength(s') - 1
                  && (LatestHead(s).Some? ==> LatestHead(s).value.sequence < LogLength(s')))
            && (SameDeliveries(c, s, s') ==> SentTo(c, s', InOrder(s'.classes.Keys)) == SentTo(c, s, InOrder(s.classes.Keys)))
            && (SealInputs(c, s) <= q && SealInputs(c, s') <= q && SealsDistinct(c, q) ==>
                  (SentTo(c, s', InOrder(s'.classes.Keys)) == SentTo(c, s, InOrder(s.classes.Keys)) ==> SameDeliveries(c, s, s')))
  {
    hide Reachable, Run, NoneDissolves, NoneLogs, SameServing, ClassesOk, Kept, SentTo, InOrder, SealInputs, SealsDistinct, SameDeliveries,
      EnvelopeOf, LatestHead;
    var s, s' := w.s, Run(c, w, steps).s;
    KeptAcross(c, w, steps);
    RunServes(c, w, steps);
    HeadFromLog(s, s');
    KeysSame(s, s');
    if !NoneLogs(c, w, steps) {
      LongerHead(c, s, s');
    }
    if SameDeliveries(c, s, s') {
      SentToSame(c, s, s', InOrder(s.classes.Keys));
    } else if SealInputs(c, s) <= q && SealInputs(c, s') <= q && SealsDistinct(c, q)
              && SentTo(c, s', InOrder(s'.classes.Keys)) == SentTo(c, s, InOrder(s.classes.Keys)) {
      SameListSameDeliveries(c, s, s', q);
    }
  }

  /** Two servings of a live agora, exactly: whatever steps lie between them, the same value is
      served if and only if no boundary was crossed, nothing ended or was logged, and every landed
      leaf is delivered to under the same key at both; the only-if half up to a listed collision of
      sealings. */
  lemma ServedAcross(c: Scheme, w: World, steps: seq<Step>, q: set<SealInput>)
    requires Primitives(c) && Reachable(c, w) && !w.s.dissolved
    ensures var s' := Run(c, w, steps).s;
            && (SameAtBoth(c, w, steps) ==> Served(c, s') == Served(c, w.s))
            && (SealInputs(c, w.s) <= q && SealInputs(c, s') <= q && SealsDistinct(c, q) ==>
                  (Served(c, s') == Served(c, w.s) ==> SameAtBoth(c, w, steps)))
  {
    hide Reachable, Run, NoneDissolves, NoneLogs, SameServing, SentTo, InOrder, SealInputs, SealsDistinct, SameDeliveries, LatestHead,
      ClassesOk, Kept, EnvelopeOf;
    var s, s' := w.s, Run(c, w, steps).s;
    KeptAcross(c, w, steps);
    if s'.epoch != s.epoch {
      EpochsApart(c, s, s');
    } else if !NoneDissolves(c, w, steps) {
      EndedStays(c, w, steps);
    } else {
      RunServes(c, w, steps);
      ContentsAcross(c, w, steps, q);
      ServedSame(c, s, s');
    }
  }

  lemma EpochsApart(c: Scheme, s: State, s': State)
    requires s'.epoch != s.epoch && Served(c, s).Ok?
    ensures Served(c, s') != Served(c, s)
  {
    hide SentTo, InOrder, BodyOf, StatementDigest, Bodies.Encoded;
  }

  // ---- A retirement between two servings ----

  /** The state without one leaf's registration. */
  function Retired(s: State, leaf: Bytes32): State {
    s.(inboxes := s.inboxes - {leaf})
  }

  lemma RetiredCiphertext(c: Scheme, s: State, leaf: Bytes32, k: Bytes32, leaves: seq<Bytes32>, slot: (nat, Bytes32))
    ensures CiphertextFor(c, Retired(s, leaf), k, leaves, slot)
         == if slot.1 == leaf then None else CiphertextFor(c, s, k, leaves, slot)
  {
    hide TruncatedPath, OwnPlain, SealKey, LookupTag, Associated, BodyKeyOf, EphemeralSecret;
  }

  lemma {:induction false} RetiredSends(c: Scheme, s: State, leaf: Bytes32, k: Bytes32, leaves: seq<Bytes32>, slots: seq<(nat, Bytes32)>)
    ensures |Sent(c, Retired(s, leaf), k, leaves, slots)| <= |Sent(c, s, k, leaves, slots)|
    ensures (exists i :: 0 <= i < |slots| && slots[i].1 == leaf && CiphertextFor(c, s, k, leaves, slots[i]).Some?) ==>
              |Sent(c, Retired(s, leaf), k, leaves, slots)| < |Sent(c, s, k, leaves, slots)|
  {
    hide CiphertextFor, Retired;
    if |slots| > 0 {
      RetiredSends(c, s, leaf, k, leaves, slots[..|slots| - 1]);
      RetiredCiphertext(c, s, leaf, k, leaves, slots[|slots| - 1]);
      if i :| 0 <= i < |slots| && slots[i].1 == leaf && CiphertextFor(c, s, k, leaves, slots[i]).Some? {
        if i < |slots| - 1 {
          assert slots[..|slots| - 1][i] == slots[i];
        }
      }
    }
  }

  /** A leaf with a ciphertext for some class. */
  ghost predicate Delivered(c: Scheme, s: State, k: Bytes32, leaf: Bytes32) {
    k in s.classes && exists i :: 0 <= i < |ByPosition(s.classes[k])| && ByPosition(s.classes[k])[i].1 == leaf
                                  && CiphertextFor(c, s, k, s.classes[k].leaves, ByPosition(s.classes[k])[i]).Some?
  }

  lemma {:induction false} RetiredSendsTo(c: Scheme, s: State, leaf: Bytes32, ids: seq<Bytes32>, k: Bytes32)
    ensures |SentTo(c, Retired(s, leaf), ids)| <= |SentTo(c, s, ids)|
    ensures k in ids && Delivered(c, s, k, leaf) ==> |SentTo(c, Retired(s, leaf), ids)| < |SentTo(c, s, ids)|
  {
    hide CiphertextFor, Sent, ByPosition;
    if |ids| > 0 {
      var last := ids[|ids| - 1];
      RetiredSendsTo(c, s, leaf, ids[..|ids| - 1], k);
      if last in s.classes {
        RetiredSends(c, s, leaf, last, s.classes[last].leaves, ByPosition(s.classes[last]));
      }
    }
  }

  /** Everything hashed to sign two envelopes. */
  ghost function SigningQueries(c: Scheme, agora: Bytes32, a: Envelope, b: Envelope): set<Query> {
    {Query(EnvelopeCiphertexts, CountedParts(a.ciphertexts)), Query(EnvelopeCiphertexts, CountedParts(b.ciphertexts)),
     Query(Bulletin, StatementParts(agora, a.epoch, a.ephemeralKey, a.body, CiphertextsDigest(c, a.ciphertexts), a.head)),
     Query(Bulletin, StatementParts(agora, b.epoch, b.ephemeralKey, b.body, CiphertextsDigest(c, b.ciphertexts), b.head))}
  }

  lemma CountedDiffer(a: seq<Ciphertext>, b: seq<Ciphertext>)
    requires CountedParts(a) == CountedParts(b)
    ensures a == b
  {
    hide ListParts, ToLE;
    assert CountedParts(a)[1..] == ListParts(a) && CountedParts(b)[1..] == ListParts(b);
    ListPartsInjective(a, b);
  }

  /** Envelopes with different lists or heads are signed as different statements. */
  lemma ContentsDiffer(c: Scheme, agora: Bytes32, a: Envelope, b: Envelope, q: set<Query>)
    requires a.ciphertexts != b.ciphertexts || HeadParts(a.head) != HeadParts(b.head)
    requires SigningQueries(c, agora, a, b) <= q && ByteCollisionFree(c, q)
    ensures StatementDigest(c, agora, a) != StatementDigest(c, agora, b)
  {
    hide ListParts, ByteCollisionFree, ToLE, HeadParts, CountedParts;
    var x, y := CiphertextsDigest(c, a.ciphertexts), CiphertextsDigest(c, b.ciphertexts);
    var m := StatementParts(agora, a.epoch, a.ephemeralKey, a.body, x, a.head);
    var n := StatementParts(agora, b.epoch, b.ephemeralKey, b.body, y, b.head);
    assert m[4] == x && n[4] == y && m[5..] == HeadParts(a.head) && n[5..] == HeadParts(b.head);
    if StatementDigest(c, agora, a) == StatementDigest(c, agora, b) {
      DistinctParts(c, q, Bulletin, m, Bulletin, n);
      DistinctParts(c, q, EnvelopeCiphertexts, CountedParts(a.ciphertexts), EnvelopeCiphertexts, CountedParts(b.ciphertexts));
      CountedDiffer(a.ciphertexts, b.ciphertexts);
    }
  }

  lemma RetireIsRetired(c: Scheme, s: State, leaf: Bytes32, inbox: Bytes32, proof: StubProof<InboxWitness>)
    requires InboxCertificate(c, s, leaf, inbox, Retire, proof).1.Ok?
    ensures InboxCertificate(c, s, leaf, inbox, Retire, proof).0 == Retired(s, leaf)
  {
  }

  lemma SignedEnvelope(c: Scheme, s: State)
    requires SignLaw(c) && PublicKey(c, s.statementSeed).Some? && s.epoch in s.history
    ensures VerifySignature(c, PublicKey(c, s.statementSeed).value, FromId(StatementDigest(c, s.agora, EnvelopeOf(c, s))),
                            EnvelopeOf(c, s).signature)
  {
    hide VerifySignature, StatementParts, SentTo, InOrder, BodyOf, Bodies.Encoded;
  }

  /** The fork check, which takes two signed envelopes of one epoch that differ to prove a fork,
      fails of an honest operator that serves its current envelope before and after a member
      retires a delivered registration in the same epoch: the check accuses it. */
  lemma HonestRedeliveryEquivocates(c: Scheme, w: World, k: Bytes32, leaf: Bytes32, inbox: Bytes32,
                                    proof: StubProof<InboxWitness>, q: set<Query>)
    requires Primitives(c) && SignLaw(c) && Reachable(c, w) && w.s.epoch in w.s.history
    requires InboxCertificate(c, w.s, leaf, inbox, Retire, proof).1.Ok? && Delivered(c, w.s, k, leaf)
    requires SigningQueries(c, w.s.agora, EnvelopeOf(c, w.s), EnvelopeOf(c, Retired(w.s, leaf))) <= q && ByteCollisionFree(c, q)
    ensures InboxCertificate(c, w.s, leaf, inbox, Retire, proof).0 == Retired(w.s, leaf)
    ensures PublicKey(c, w.s.statementSeed).Some?
    ensures EnvelopeEquivocation(c, PublicKey(c, w.s.statementSeed).value, w.s.agora,
                                 EnvelopeOf(c, w.s), EnvelopeOf(c, Retired(w.s, leaf)))
  {
    hide Reachable, Core, Covered, Growing, SignLaw, InboxCertificate, Delivered, SigningQueries, ByteCollisionFree, StatementDigest,
      SentTo, InOrder, BodyOf, Bodies.Encoded, VerifySignature, WellKept, Ephemeral, BodyKeyOf, Associated;
    ReachableIsSound(c, w);
    RetireIsRetired(c, w.s, leaf, inbox, proof);
    SignedEnvelope(c, w.s);
    SignedEnvelope(c, Retired(w.s, leaf));
    DeliveredClass(c, w.s, k, leaf);
    InOrderHas(w.s.classes.Keys, k);
    RetiredSendsTo(c, w.s, leaf, InOrder(w.s.classes.Keys), k);
    ContentsDiffer(c, w.s.agora, EnvelopeOf(c, w.s), EnvelopeOf(c, Retired(w.s, leaf)), q);
  }

  lemma DeliveredClass(c: Scheme, s: State, k: Bytes32, leaf: Bytes32)
    requires Delivered(c, s, k, leaf)
    ensures k in s.classes
  {
  }

  /** Which honest redeliveries the fork check accuses, exactly: in every run, serving the envelope
      before and after a step that leaves the agora live is an equivocation if and only if the step
      crosses no boundary and disturbs what is served, up to listed collisions. */
  lemma RedeliveryEquivocates(c: Scheme, w: World, step: Step, seals: set<SealInput>, q: set<Query>)
    requires Primitives(c) && SignLaw(c) && Reachable(c, w)
    requires Served(c, w.s).Ok? && Served(c, Apply(c, w.s, step).0).Ok?
    requires SealInputs(c, w.s) <= seals && SealInputs(c, Apply(c, w.s, step).0) <= seals && SealsDistinct(c, seals)
    requires SigningQueries(c, w.s.agora, Served(c, w.s).value, Served(c, Apply(c, w.s, step).0).value) <= q && ByteCollisionFree(c, q)
    ensures PublicKey(c, w.s.statementSeed).Some?
    ensures EnvelopeEquivocation(c, PublicKey(c, w.s.statementSeed).value, w.s.agora,
                                 Served(c, w.s).value, Served(c, Apply(c, w.s, step).0).value)
       <==> Crossing(w.s, step).None? && !Undisturbing(c, w.s, step)
  {
    hide Reachable, Core, Covered, Growing, SignLaw, Crossing, Apply, Undisturbing, SealInputs, SealsDistinct, SigningQueries, ByteCollisionFree,
      StatementDigest, SentTo, InOrder, BodyOf, Bodies.Encoded, VerifySignature, WellKept, Ephemeral, BodyKeyOf, Associated,
      SameServing, ClassesOk, SameDeliveries, DeliveryAfter, DeliveryWithin, LatestHead, HeadParts, GroundOf;
    var s, s' := w.s, Apply(c, w.s, step).0;
    ReachableIsSound(c, w);
    ServedAgain(c, w, step, seals);
    SignedEnvelope(c, s);
    if Crossing(s, step).Some? {
      CrossingTurns(c, w, step);
    } else {
      if Dissolves(s, step) {
        DissolvingEnds(c, s, step);
        assert false;
      }
      StepServes(c, w, step);
      ServingKeys(s, s');
      SignedEnvelope(c, s');
      if !Undisturbing(c, s, step) {
        ServedSame(c, s, s');
        HeadFromLog(s, s');
        assert SentTo(c, s', InOrder(s'.classes.Keys)) != SentTo(c, s, InOrder(s.classes.Keys)) || HeadParts(LatestHead(s')) != HeadParts(LatestHead(s));
        ContentsDiffer(c, s.agora, EnvelopeOf(c, s), EnvelopeOf(c, s'), q);
      }
    }
  }

  lemma ServingKeys(s: State, s': State)
    requires SameServing(s, s')
    ensures s'.agora == s.agora && s'.epoch == s.epoch && s'.statementSeed == s.statementSeed
  {
  }

  /** And which two honest servings prove a fork, exactly, while the log's length fits a u64: those
      of one epoch between which something was logged, or at which some landed leaf's keys differ. */
  lemma EquivocatesAcross(c: Scheme, w: World, steps: seq<Step>, seals: set<SealInput>, q: set<Query>)
    requires Primitives(c) && SignLaw(c) && Reachable(c, w)
    requires Served(c, w.s).Ok? && Served(c, Run(c, w, steps).s).Ok? && LogLength(Run(c, w, steps).s) < U64
    requires SealInputs(c, w.s) <= seals && SealInputs(c, Run(c, w, steps).s) <= seals && SealsDistinct(c, seals)
    requires SigningQueries(c, w.s.agora, Served(c, w.s).value, Served(c, Run(c, w, steps).s).value) <= q && ByteCollisionFree(c, q)
    ensures PublicKey(c, w.s.statementSeed).Some?
    ensures EnvelopeEquivocation(c, PublicKey(c, w.s.statementSeed).value, w.s.agora,
                                 Served(c, w.s).value, Served(c, Run(c, w, steps).s).value)
       <==> Run(c, w, steps).s.epoch == w.s.epoch && !SameAtBoth(c, w, steps)
  {
    hide Reachable, Core, Covered, Growing, SignLaw, Run, SealInputs, SealsDistinct, SigningQueries, ByteCollisionFree, NoneLogs, NoneDissolves,
      StatementDigest, SentTo, InOrder, BodyOf, Bodies.Encoded, VerifySignature, WellKept, Ephemeral, BodyKeyOf, Associated,
      SameServing, ClassesOk, SameDeliveries, LatestHead, HeadParts, GroundOf;
    var s, s' := w.s, Run(c, w, steps).s;
    ReachableIsSound(c, w);
    if s'.epoch == s.epoch {
      if !NoneDissolves(c, w, steps) {
        EndedStays(c, w, steps);
        assert false;
      }
      RunServes(c, w, steps);
      ServingKeys(s, s');
      SignedEnvelope(c, s);
      SignedEnvelope(c, s');
      ContentsAcross(c, w, steps, seals);
      ServedAcross(c, w, steps, seals);
      if !SameAtBoth(c, w, steps) {
        if !NoneLogs(c, w, steps) {
          HeadsApart(LatestHead(s), LatestHead(s'));
        }
        ContentsDiffer(c, s.agora, EnvelopeOf(c, s), EnvelopeOf(c, s'), q);
      }
    }
  }

  lemma HeadsApart(a: Option<SignedHead>, b: Option<SignedHead>)
    requires a != b && (a.Some? ==> a.value.sequence < U64) && (b.Some? ==> b.value.sequence < U64)
    ensures HeadParts(a) != HeadParts(b)
  {
    hide HeadParts;
    if HeadParts(a) == HeadParts(b) {
      HeadPartsInjective(a, b);
    }
  }

  // ---- A key another member already has ----

  /** A lookup that misleads, which the operator lets happen: a member renews its registration to the
      key a lower position of its class is delivered to under, and from then on its own tag finds
      another member's ciphertext, up to a listed collision of tags. */
  lemma SharedKeyMisleads(c: Scheme, w: World, k: Bytes32, first: Bytes32, leaf: Bytes32, key: Bytes32, proof: StubProof<InboxWitness>,
                          q: set<Derivation>)
    requires Primitives(c) && SealLaw(c) && Reachable(c, w) && k in w.s.classes
    requires first in w.s.classes[k].positions && leaf in w.s.classes[k].positions
    requires w.s.classes[k].positions[first] < w.s.classes[k].positions[leaf]
    requires DeliveryKey(c, w.s, first) == Some(key) && Instructs(c, w.s, leaf, key, Renew, proof)
    requires TagInputs(c, InboxCertificate(c, w.s, leaf, key, Renew, proof).0) <= q && LookupTagsDistinct(c, q)
    ensures var (s', answer) := InboxCertificate(c, w.s, leaf, key, Renew, proof);
            && answer.Ok?
            && k in s'.classes && leaf in s'.classes[k].positions && OwnCiphertext(c, s', k, leaf).Some?
            && Lookup(SentTo(c, s', InOrder(s'.classes.Keys)), OwnCiphertext(c, s', k, leaf).value.tag) != OwnCiphertext(c, s', k, leaf)
  {
    hide Reachable, SealLaw, Sound, ClassesOk, ClassOk, DeliveryKey, OwnCiphertext, SentTo, InOrder, TagInputs, LookupTagsDistinct,
      InboxCertificate, Instructs;
    var s' := InboxCertificate(c, w.s, leaf, key, Renew, proof).0;
    RenewedKeys(c, w, first, leaf, key, proof);
    ClassIn(c, s'.classes, k);
    DeliveredHas(c, s', k, leaf);
    InOrderHas(s'.classes.Keys, k);
    assert !FirstUnderKey(c, s', k, leaf);
    LookupFindsOwn(c, s', InOrder(s'.classes.Keys), k, leaf, q);
  }

  /** After the renewal both leaves are delivered to under the one key. */
  lemma RenewedKeys(c: Scheme, w: World, first: Bytes32, leaf: Bytes32, key: Bytes32, proof: StubProof<InboxWitness>)
    requires Primitives(c) && Reachable(c, w) && first != leaf
    requires DeliveryKey(c, w.s, first) == Some(key) && Instructs(c, w.s, leaf, key, Renew, proof)
    ensures var (s', answer) := InboxCertificate(c, w.s, leaf, key, Renew, proof);
            && answer.Ok? && s'.classes == w.s.classes && ClassesOk(c, s'.classes)
            && DeliveryKey(c, s', first) == Some(key) && DeliveryKey(c, s', leaf) == Some(key)
  {
    hide Reachable, Sound, ClassesOk, DeliveryKey, InboxCertificate, VerifyInbox, Landed, Core, SameServing;
    ReachableIsSound(c, w);
    LoggedIsKept(c, w);
    CoreGoverned(c, w.s);
    OperatorServing.ReachableIsServed(c, w);
    CertifyingDelivers(c, w.s, leaf, key, Renew, proof, first);
    CertifyingDelivers(c, w.s, leaf, key, Renew, proof, leaf);
    DeliveryNow(c, w.s, first);
    Renewed(c, w.s, leaf, key, proof);
  }

  lemma Renewed(c: Scheme, s: State, leaf: Bytes32, key: Bytes32, proof: StubProof<InboxWitness>)
    requires Instructs(c, s, leaf, key, Renew, proof)
    ensures InboxCertificate(c, s, leaf, key, Renew, proof).1.Ok? && InboxCertificate(c, s, leaf, key, Renew, proof).0.classes == s.classes
  {
    hide VerifyInbox, Landed;
  }
}
