/** The operator as the object it is: fields updated in place, step by step, each method tied to
    the transition it performs. */
module Agoras {
  import opened Wrappers
  import opened Bytes
  import opened Crypto
  import opened BatchTree
  import opened Ascending
  import opened Exclusion
  import opened Statements
  import opened Decisions
  import opened Operator
  import opened OperatorLayout
  import opened Log
  import opened Bulletins
  import opened Inboxes
  import Bodies

  /** An answer that carries an envelope, as the acknowledgement it is. */
  function Acknowledged(r: Result<Envelope>, response: Response): Result<Response> {
    match r
    case Ok(_) => Ok(response)
    case Err(error) => Err(error)
  }

  class AgoraState {
    const c: Scheme
    const agora: Bytes32
    var epoch: nat
    var quorum: nat
    var classes: map<Bytes32, ClassState>
    var revocations: set<nat>
    var spends: set<nat>
    var staged: Staged
    var pending: set<Bytes32>
    var sessions: map<Bytes32, Session>
    var proposals: map<Bytes32, Proposal>
    var challenges: set<Bytes32>
    var history: map<nat, Snapshot>
    var tagSecret: Bytes32
    var statementSeed: Bytes32
    var log: Option<LogState>
    var dissolved: bool
    var inboxes: map<Bytes32, InboxRecord>
    var stagedInboxes: map<Bytes32, Bytes32>
    var revokedLeaves: set<Bytes32>
    var horizon: nat

    function View(): State
      reads this
    {
      State(agora, epoch, quorum, classes, revocations, spends, staged, pending, sessions, proposals, challenges, history,
            tagSecret, statementSeed, log, dissolved, inboxes, stagedInboxes, revokedLeaves, horizon)
    }

    ghost predicate Valid()
      reads this
    {
      Primitives(c) && Core(c, View())
    }

    /** The fields `create` starts from, before any class is configured. */
    constructor (c: Scheme, f: Founding, tagSecret: Bytes32, statement: Bytes32, logSeed: Option<Bytes32>)
      ensures this.c == c
      ensures View() == Operator.State(
                f.agora, f.genesis, 1, map[], {}, {}, NOTHING_STAGED, {}, map[], map[], {}, map[],
                tagSecret, MintSigningSecret(statement),
                if logSeed.None? then None else Some(LogState(MintSigningSecret(logSeed.value), [], [])),
                false, map[], map[], {}, DEFAULT_INBOX_HORIZON)
    {
      this.c := c;
      agora, epoch, quorum := f.agora, f.genesis, 1;
      classes, revocations, spends := map[], {}, {};
      staged, pending := NOTHING_STAGED, {};
      sessions, proposals, challenges, history := map[], map[], {}, map[];
      this.tagSecret := tagSecret;
      statementSeed := MintSigningSecret(statement);
      log := if logSeed.None? then None else Some(LogState(MintSigningSecret(logSeed.value), [], []));
      dissolved := false;
      inboxes, stagedInboxes, revokedLeaves := map[], map[], {};
      horizon := DEFAULT_INBOX_HORIZON;
    }

    /** Founds an agora: configures the classes, checks every policy, lands the founder in each
        listed class, and records the genesis snapshot. */
    static method Create(c: Scheme, f: Founding, tagSecret: Bytes32, statement: Bytes32, logSeed: Option<Bytes32>)
      returns (state: AgoraState?, r: Result<Response>)
      ensures r.Ok? <==> Created(c, f, tagSecret, statement, logSeed).Ok?
      ensures r.Err? ==> r == Err(Malformed)
      ensures r.Ok? ==> state != null && fresh(state) && state.c == c
      ensures r.Ok? ==> state.View() == Created(c, f, tagSecret, statement, logSeed).value
      ensures r.Ok? && Primitives(c) && f.genesis < U64 && DistinctIds(f.founderClasses) ==> state.Valid()
    {
      hide Snapshotted, Core, Land;
      if |f.classes| == 0 {
        return null, Err(Malformed);
      }
      var s := new AgoraState(c, f, tagSecret, statement, logSeed);
      var configured: map<Bytes32, ClassState> := map[];
      for i := 0 to |f.classes|
        invariant configured == FoundClasses(f.classes[..i])
      {
        assert f.classes[..i + 1][..i] == f.classes[..i];
        configured := configured[f.classes[i].0 := ClassState([], f.classes[i].1, 1, 0, map[])];
      }
      assert f.classes[..|f.classes|] == f.classes;
      for i := 0 to |f.classes|
        invariant PolicyConsistent(configured, f.classes[..i])
      {
        if f.classes[i].1.threshold == 0 || f.classes[i].1.voucherClass !in configured {
          return null, Err(Malformed);
        }
      }
      for i := 0 to |f.founderClasses|
        invariant LandFounder(c, configured, f.founder, f.founderClasses[i..])
               == LandFounder(c, FoundClasses(f.classes), f.founder, f.founderClasses)
      {
        var class_ := f.founderClasses[i];
        assert f.founderClasses[i..][0] == class_ && f.founderClasses[i..][1..] == f.founderClasses[i + 1..];
        if class_ !in configured {
          return null, Err(Malformed);
        }
        var landed := Land(c, configured[class_], f.founder);
        if landed.None? {
          return null, Err(Malformed);
        }
        configured := configured[class_ := landed.value];
      }
      s.Found(configured, f.founder, f.founderInbox);
      if Primitives(c) && f.genesis < U64 && DistinctIds(f.founderClasses) {
        CreatedOk(c, f, tagSecret, statement, logSeed);
      }
      return s, Ok(Recorded);
    }

    /** Takes the founded classes and registers the founder's inbox, then snapshots. */
    method Found(founded: map<Bytes32, ClassState>, founder: Bytes32, inbox: Bytes32)
      modifies this
      ensures View() == Snapshotted(c, old(View()).(classes := founded, inboxes := old(inboxes)[founder := InboxRecord(inbox, old(epoch))]))
    {
      hide Snapshotted;
      classes := founded;
      inboxes := inboxes[founder := InboxRecord(inbox, epoch)];
      TakeSnapshot();
    }

    // ---- The boundary's parts ----

    /** Fixes the roots of the trees of now as what this epoch is checked against, an entry each in the log. */
    method TakeSnapshot()
      modifies this
      ensures View() == Snapshotted(c, old(View()))
    {
      hide Appended, SnapshotOf, InOrder;
      var snap := SnapshotOf(c, classes, revocations, spends);
      if log.Some? {
        var ids := InOrder(snap.classRoots.Keys);
        var entries := log.value;
        for i := 0 to |ids|
          invariant entries == LogClasses(c, log.value, epoch, ids[..i], snap.classRoots)
        {
          assert ids[..i + 1][..i] == ids[..i];
          if ids[i] in snap.classRoots {
            entries := Appended(c, entries, ClassRoot(epoch, ids[i], snap.classRoots[ids[i]]));
          }
        }
        assert ids[..|ids|] == ids;
        log := Some(Appended(c, entries, ExclusionRoots(epoch, snap.revocation, snap.spend)));
      }
      history := history[epoch := snap];
    }

    /** Lands what is staged, in order, stopping at the first that cannot land. */
    method LandStaged(admissions: seq<(Bytes32, Bytes32)>, next: nat) returns (ok: bool)
      modifies this`classes, this`inboxes, this`stagedInboxes
      ensures Landing(classes, inboxes, stagedInboxes, ok)
           == LandAll(c, Landing(old(classes), old(inboxes), old(stagedInboxes), true), admissions, next)
    {
      ghost var start := Landing(classes, inboxes, stagedInboxes, true);
      for i := 0 to |admissions|
        invariant LandAll(c, Landing(classes, inboxes, stagedInboxes, true), admissions[i..], next)
               == LandAll(c, start, admissions, next)
      {
        var (class_, leaf) := admissions[i];
        assert admissions[i..][0] == admissions[i] && admissions[i..][1..] == admissions[i + 1..];
        if class_ !in classes {
          return false;
        }
        var landed := Land(c, classes[class_], leaf);
        if landed.None? {
          return false;
        }
        classes := classes[class_ := landed.value];
        if leaf in stagedInboxes {
          inboxes := inboxes[leaf := InboxRecord(stagedInboxes[leaf], next)];
          stagedInboxes := stagedInboxes - {leaf};
        }
      }
      return true;
    }

    /** The exclusion sets take their staged entries. */
    method LandExclusions(taken: Staged)
      modifies this`spends, this`revocations, this`revokedLeaves
      ensures spends == old(spends) + SpendKeys(taken.spends)
      ensures revocations == old(revocations) + RevocationKeys(c, taken.revocations)
      ensures revokedLeaves == old(revokedLeaves) + Members(taken.revocations)
    {
      hide OrderOf, RevocationKey;
      for i := 0 to |taken.spends|
        invariant spends == old(spends) + SpendKeys(taken.spends[..i])
        invariant revocations == old(revocations) && revokedLeaves == old(revokedLeaves)
      {
        SpendKeysGrow(taken.spends, i);
        spends := spends + {OrderOf(taken.spends[i])};
      }
      assert taken.spends[..|taken.spends|] == taken.spends;
      for i := 0 to |taken.revocations|
        invariant spends == old(spends) + SpendKeys(taken.spends)
        invariant revocations == old(revocations) + RevocationKeys(c, taken.revocations[..i])
        invariant revokedLeaves == old(revokedLeaves) + Members(taken.revocations[..i])
      {
        RevocationKeysGrow(c, taken.revocations, i);
        revocations := revocations + {OrderOf(RevocationKey(c, taken.revocations[i]))};
        revokedLeaves := revokedLeaves + {taken.revocations[i]};
      }
      assert taken.revocations[..|taken.revocations|] == taken.revocations;
    }

    /** Drops every open session, proposal and challenge. */
    method CloseAll()
      modifies this`sessions, this`proposals, this`challenges
      ensures sessions == map[] && proposals == map[] && challenges == {}
    {
      sessions := map[];
      proposals := map[];
      challenges := {};
    }

    /** The exclusions land, the epoch turns, and everything open expires. */
    method Turn(taken: Staged, next: nat)
      requires next == epoch + 1
      modifies this`spends, this`revocations, this`revokedLeaves, this`epoch, this`sessions, this`proposals, this`challenges
      ensures View() == Turned(c, old(View()), taken)
    {
      hide SpendKeys, RevocationKeys, Members;
      LandExclusions(taken);
      epoch := next;
      CloseAll();
    }

    /** Advances to the next epoch and produces its envelope. */
    method AdvanceEpoch() returns (r: Result<Envelope>)
      requires Valid()
      modifies this
      ensures Valid()
      ensures View() == Operator.AdvanceEpoch(c, old(View())).0
      ensures Acknowledged(r, Advanced) == Operator.AdvanceEpoch(c, old(View())).1
      ensures r.Ok? ==> epoch in history && r == Ok(EnvelopeOf(c, View()))
    {
      hide Core, ClassesOk, StagedFor, Snapshotted, Turned, LandAll, EnvelopeOf, Operator.AdvanceEpoch;
      ghost var s := View();
      AdvanceKeeps(c, s);
      AdvanceIs(c, s);
      if dissolved {
        return Err(Rejected);
      }
      var taken := staged;
      staged := NOTHING_STAGED;
      if epoch + 1 >= U64 {
        return Err(Unavailable);
      }
      var next := epoch + 1;
      var ok := LandTaken(taken, next);
      if !ok {
        return Err(Unavailable);
      }
      AllLands(c, s);
      r := Cross(taken, next);
    }

    /** Lands what was taken for the next epoch. */
    method LandTaken(taken: Staged, next: nat) returns (ok: bool)
      requires staged == NOTHING_STAGED
      modifies this`classes, this`inboxes, this`stagedInboxes
      ensures var landed := LandAll(c, Landing(old(classes), old(inboxes), old(stagedInboxes), true), taken.admissions, next);
              View() == AfterLanding(old(View()), landed) && ok == landed.ok
    {
      hide LandAll;
      ok := LandStaged(taken.admissions, next);
    }

    /** Turns the epoch over what landed, records its roots, and equips its members. */
    method Cross(taken: Staged, next: nat) returns (r: Result<Envelope>)
      requires next == epoch + 1 && ClassesOk(c, classes)
      modifies this
      ensures View() == Snapshotted(c, Turned(c, old(View()), taken))
      ensures epoch in history && r == Ok(EnvelopeOf(c, View()))
    {
      hide ClassesOk, Snapshotted, Turned, EnvelopeOf;
      TurnKeepsClasses(c, View(), taken);
      Turn(taken, next);
      SnapshotRecords(c, View());
      TakeSnapshot();
      r := Equip();
    }

    method Equip() returns (r: Result<Envelope>)
      requires epoch in history && ClassesOk(c, classes)
      ensures r == Ok(EnvelopeOf(c, View()))
    {
      hide ClassesOk, EnvelopeOf;
      var envelope := EnvelopeNow();
      return Ok(envelope);
    }

    /** Drops everything open or staged, for good. */
    method Silence()
      modifies this`dissolved, this`sessions, this`proposals, this`challenges, this`staged
      ensures View() == old(View()).(dissolved := true, sessions := map[], proposals := map[], challenges := {}, staged := NOTHING_STAGED)
    {
      dissolved := true;
      CloseAll();
      staged := NOTHING_STAGED;
    }

    /** Destroys what derives keys and signs. */
    method DestroySecrets()
      modifies this`pending, this`tagSecret, this`statementSeed
      ensures View() == old(View()).(pending := {}, tagSecret := ZERO32, statementSeed := ZERO32)
    {
      pending := {};
      tagSecret := ZERO32;
      statementSeed := ZERO32;
    }

    /** Freezes the agora: what is open or staged is dropped, the secrets are destroyed, and the
        log gains its last entry. */
    method Dissolve()
      modifies this
      ensures View() == Operator.Dissolve(c, old(View()))
    {
      hide Appended;
      Silence();
      DestroySecrets();
      if log.Some? {
        log := Some(Appended(c, log.value, LogEntry.Frozen(epoch)));
      }
    }

    // ---- The envelope ----

    /** The landed leaves in position order, collected and sorted. */
    method SortedSlots(class_: Bytes32) returns (slots: seq<(nat, Bytes32)>)
      requires class_ in classes && ClassOk(c, classes[class_])
      ensures slots == ByPosition(classes[class_])
    {
      hide ClassOk, ByPosition, Sorted, HeldPositions, Evens, Capacity;
      var cs := classes[class_];
      var order := Sorted(HeldPositions(cs));
      EvenPositions(c, cs);
      slots := [];
      for i := 0 to |order|
        invariant slots == ByPosition(cs)[..i]
      {
        SlotAt(c, cs, i);
        var leaf :| leaf in cs.positions && cs.positions[leaf] == order[i];
        slots := slots + [(order[i], leaf)];
      }
    }

    /** One class's ciphertexts, in position order. */
    method SealFor(class_: Bytes32, slots: seq<(nat, Bytes32)>, before: seq<Ciphertext>) returns (list: seq<Ciphertext>)
      requires class_ in classes
      ensures list == before + Sent(c, View(), class_, classes[class_].leaves, slots)
    {
      list := before;
      for i := 0 to |slots|
        invariant list == before + Sent(c, View(), class_, classes[class_].leaves, slots[..i])
      {
        assert slots[..i + 1][..i] == slots[..i];
        var ciphertext := CiphertextFor(c, View(), class_, classes[class_].leaves, slots[i]);
        if ciphertext.Some? {
          list := list + [ciphertext.value];
        }
      }
      assert slots[..|slots|] == slots;
    }

    /** The current epoch's envelope: the body sealed once, then a ciphertext per live credential
        per class, in class-then-position order. */
    method EnvelopeNow() returns (envelope: Envelope)
      requires epoch in history && ClassesOk(c, classes)
      ensures envelope == EnvelopeOf(c, View())
    {
      hide ClassesOk, ClassOk, ByPosition, Sent, Bodies.Encoded, StatementDigest, InOrder, RootPairs;
      var ephemeral := EphemeralSecret(c, tagSecret, agora, epoch);
      var plain := Bodies.Encode(BodyOf(c, View()));
      var body := c.seal(BodyKeyOf(c, tagSecret, agora, epoch), Associated(c, agora, epoch), plain);
      var ids := InOrder(classes.Keys);
      var list: seq<Ciphertext> := [];
      for i := 0 to |ids|
        invariant list == SentTo(c, View(), ids[..i])
      {
        assert ids[..i + 1][..i] == ids[..i];
        if ids[i] in classes {
          ClassIn(c, classes, ids[i]);
          var slots := SortedSlots(ids[i]);
          list := SealFor(ids[i], slots, list);
        }
      }
      assert ids[..|ids|] == ids;
      envelope := Envelope(epoch, c.inboxPublic(ephemeral), body, list, LatestHead(View()), []);
      envelope := envelope.(signature := c.sign(statementSeed, FromId(StatementDigest(c, agora, envelope))));
    }

    /** The current envelope again, for a live agora. */
    method CurrentEnvelope() returns (r: Result<Envelope>)
      requires Valid() && epoch in history
      ensures r == if dissolved then Err(Rejected) else Ok(EnvelopeOf(c, View()))
    {
      hide Core, EnvelopeOf;
      CoreLayout(c, View());
      if dissolved {
        return Err(Rejected);
      }
      var envelope := EnvelopeNow();
      return Ok(envelope);
    }

    // ---- Requests ----

    /** Leaves a class can still stage: never negative, so the subtraction never underflows. */
    method RemainingCapacity(class_: Bytes32) returns (n: nat)
      requires Valid()
      ensures n == Remaining(c, View(), class_)
    {
      hide Core, Capacity;
      RemainingIsNatural(c, View(), class_);
      if class_ !in classes {
        return 0;
      }
      var count := StagedCount(class_);
      return Capacity(c) - classes[class_].occupied - count;
    }

    method StagedCount(class_: Bytes32) returns (count: nat)
      ensures count == StagedIn(staged.admissions, class_)
    {
      count := 0;
      for i := 0 to |staged.admissions|
        invariant count + StagedIn(staged.admissions[i..], class_) == StagedIn(staged.admissions, class_)
      {
        StagedHead(staged.admissions[i..], class_);
        assert staged.admissions[i..][1..] == staged.admissions[i + 1..];
        if staged.admissions[i].0 == class_ {
          count := count + 1;
        }
      }
    }

    method CredentialsInit(commitment: Bytes32, inbox: Bytes32) returns (r: Result<Response>)
      requires Valid()
      modifies this
      ensures Valid() && (View(), r) == Operator.CredentialsInit(old(View()), commitment, inbox)
    {
      hide Core;
      IntakeKeeps(c, View(), commitment, inbox, inbox);
      if dissolved {
        return Err(Rejected);
      }
      pending := pending + {commitment};
      stagedInboxes := stagedInboxes[commitment := inbox];
      return Ok(Recorded);
    }

    method StartVouch(candidate: Bytes32, target: Bytes32, id: Bytes32) returns (r: Result<Response>)
      requires Valid()
      modifies this
      ensures Valid() && (View(), r) == Operator.StartVouch(c, old(View()), candidate, target, id)
    {
      hide Core, Remaining;
      IntakeKeeps(c, View(), candidate, target, id);
      if dissolved || candidate !in pending || target !in classes || candidate in classes[target].positions {
        return Err(Rejected);
      }
      var room := RemainingCapacity(target);
      if room == 0 {
        return Err(Rejected);
      }
      sessions := sessions[id := Session(candidate, target, {})];
      return Ok(Opened(id));
    }

    method VouchAttest(id: Bytes32, proof: StubProof<ChainWitness>, nullifier: Bytes32) returns (r: Result<Response>)
      requires Valid()
      modifies this
      ensures Valid() && (View(), r) == Operator.VouchAttest(c, old(View()), id, proof, nullifier)
    {
      hide Core, VerifyChain, RootsIn;
      AttestKeeps(c, View(), id, proof, nullifier);
      if dissolved || id !in sessions || sessions[id].target !in classes {
        return Err(Rejected);
      }
      var roots := RootsIn(View(), epoch, classes[sessions[id].target].policy.voucherClass);
      if roots.None? || !VerifyChain(c, proof, VouchPublic(View(), roots.value, id, nullifier)) {
        return Err(Rejected);
      }
      if nullifier in sessions[id].nullifiers {
        return Err(Rejected);
      }
      var open_ := sessions[id];
      sessions := sessions[id := open_.(nullifiers := open_.nullifiers + {nullifier})];
      return Ok(Recorded);
    }

    /** Stages a leaf for the next boundary. */
    method StageAdmission(class_: Bytes32, leaf: Bytes32) returns (r: Result<Response>)
      requires Valid()
      modifies this`staged
      ensures (View(), r) == Operator.StageAdmission(c, old(View()), class_, leaf)
    {
      hide Core, Remaining, StagedIn;
      var room := RemainingCapacity(class_);
      if room == 0 || class_ !in classes {
        return Err(Rejected);
      }
      if leaf in classes[class_].positions || (class_, leaf) in staged.admissions {
        return Err(Rejected);
      }
      var stagedBefore := StagedCount(class_);
      var position := PositionOf(classes[class_].occupied + stagedBefore);
      staged := staged.(admissions := staged.admissions + [(class_, leaf)]);
      if epoch + 1 >= U64 {
        return Err(Rejected);
      }
      return Ok(Admitted(Admission(epoch + 1, position)));
    }

    method VouchFinalize(id: Bytes32) returns (r: Result<Response>)
      requires Valid()
      modifies this
      ensures Valid() && (View(), r) == Operator.VouchFinalize(c, old(View()), id)
    {
      hide Core, Operator.StageAdmission;
      ghost var s := View();
      FinalizeKeeps(c, s, id);
      if dissolved || id !in sessions {
        return Err(Rejected);
      }
      var open_ := sessions[id];
      sessions := sessions - {id};
      if open_.target !in classes || |open_.nullifiers| < classes[open_.target].policy.threshold {
        return Err(Rejected);
      }
      pending := pending - {open_.candidate};
      FrameKeeps(c, s, View());
      r := StageAdmission(open_.target, open_.candidate);
    }

    method Migrate(class_: Bytes32, proof: StubProof<MigrationWitness>, spend: Bytes32, successor: Bytes32, inbox: Bytes32)
      returns (r: Result<Response>)
      requires Valid()
      modifies this
      ensures Valid() && (View(), r) == Operator.Migrate(c, old(View()), class_, proof, spend, successor, inbox)
    {
      hide Core, Operator.StageAdmission, VerifyMigration, RootsIn, OrderOf;
      MigrateKeeps(c, View(), class_, proof, spend, successor, inbox);
      if dissolved || OrderOf(spend) in spends || spend in staged.spends {
        return Err(Rejected);
      }
      if class_ !in classes || successor in classes[class_].positions {
        return Err(Rejected);
      }
      var roots := RootsIn(View(), epoch, class_);
      if roots.None? || !VerifyMigration(c, proof, MigrationPublicOf(View(), roots.value, spend, successor)) {
        return Err(Rejected);
      }
      r := StageAdmission(class_, successor);
      if r.Err? {
        return r;
      }
      staged := staged.(spends := staged.spends + [spend]);
      stagedInboxes := stagedInboxes[successor := inbox];
    }

    method Propose(d: Decision, approving: Bytes32, nonce: Bytes32) returns (r: Result<Response>)
      requires Valid()
      modifies this
      ensures Valid() && (View(), r) == Operator.Propose(c, old(View()), d, approving, nonce)
    {
      hide Core, SubjectId;
      ProposeKeeps(c, View(), d, approving, nonce);
      if dissolved || approving !in classes {
        return Err(Rejected);
      }
      if d.Policy? {
        if d.class_ !in classes {
          return Err(Rejected);
        }
        if d.threshold == 0 || d.quorum == 0 {
          return Err(Malformed);
        }
      }
      if d.InboxHorizon? && d.boundaries < MIN_INBOX_HORIZON {
        return Err(Malformed);
      }
      var subject := SubjectId(c, agora, epoch, approving, d, nonce);
      proposals := proposals[subject := Proposal(d, approving, epoch, nonce, {})];
      return Ok(Raised(subject));
    }

    method Approve(subject: Bytes32, proof: StubProof<ChainWitness>, nullifier: Bytes32) returns (r: Result<Response>)
      requires Valid()
      modifies this
      ensures Valid() && (View(), r) == Operator.Approve(c, old(View()), subject, proof, nullifier)
    {
      hide Core, VerifyChain, RootsIn;
      ApproveKeeps(c, View(), subject, proof, nullifier);
      if dissolved || subject !in proposals {
        return Err(Rejected);
      }
      var roots := RootsIn(View(), epoch, proposals[subject].approving);
      if roots.None? || !VerifyChain(c, proof, ApprovalPublic(View(), roots.value, subject, nullifier)) {
        return Err(Rejected);
      }
      if nullifier in proposals[subject].approvals {
        return Err(Rejected);
      }
      var open_ := proposals[subject];
      proposals := proposals[subject := open_.(approvals := open_.approvals + {nullifier})];
      return Ok(Recorded);
    }

    /** Puts a consumed policy decision in force. */
    method Activate(d: Decision) returns (r: Result<Response>)
      requires d.Policy?
      modifies this`classes, this`quorum, this`log
      ensures (View(), r) == ActivatePolicy(c, old(View()), d)
    {
      hide Appended;
      if d.class_ !in classes {
        return Err(Rejected);
      }
      var changed := classes[d.class_].(policy := classes[d.class_].policy.(threshold := d.threshold),
                                        version := classes[d.class_].version + 1);
      classes := classes[d.class_ := changed];
      quorum := d.quorum;
      if log.Some? {
        log := Some(Appended(c, log.value, PolicyChanged(epoch, d.class_, changed.version)));
      }
      return Ok(PolicyActivated(changed.version));
    }

    /** Stages a revocation and crosses the boundary that lands it. */
    method Revoke(leaf: Bytes32) returns (r: Result<Response>)
      requires Primitives(c) && Core(c, Revoking(View(), leaf))
      modifies this
      ensures (View(), r) == Revocated(c, old(View()), leaf)
    {
      hide Core, Operator.AdvanceEpoch, EnvelopeOf;
      staged := staged.(revocations := staged.revocations + [leaf]);
      var envelope := AdvanceEpoch();
      r := Acknowledged(envelope, Revoked);
    }

    /** Carries out an approved decision; a revocation is itself a boundary. */
    method Execute(subject: Bytes32) returns (r: Result<Response>)
      requires Valid()
      modifies this
      ensures Valid() && (View(), r) == Operator.Execute(c, old(View()), subject)
    {
      hide Core, ActivatePolicy, Operator.AdvanceEpoch, Operator.Dissolve, Operator.Execute;
      ghost var s := View();
      ExecuteKeeps(c, s, subject);
      ExecuteIs(c, s, subject);
      if dissolved || subject !in proposals || |proposals[subject].approvals| < quorum {
        return Err(Rejected);
      }
      var d := proposals[subject].decision;
      proposals := proposals - {subject};
      match d {
        case Policy(_, _, _) =>
          r := Activate(d);
        case Revocation(leaf) =>
          ConsumedKeeps(c, s, subject);
          assert Revoking(View(), leaf) == Consumed(s, subject);
          r := Revoke(leaf);
        case Dissolution =>
          Dissolve();
          r := Ok(Dissolved);
        case InboxHorizon(boundaries) =>
          horizon := boundaries;
          r := Ok(HorizonSet(boundaries));
      }
    }

    method InboxCertificate(leaf: Bytes32, inbox: Bytes32, action: InboxAction, proof: StubProof<InboxWitness>)
      returns (r: Result<Response>)
      requires Valid()
      modifies this
      ensures Valid() && (View(), r) == Operator.InboxCertificate(c, old(View()), leaf, inbox, action, proof)
    {
      hide Core, VerifyInbox;
      CertificateKeeps(c, View(), leaf, inbox, action, proof);
      if dissolved || !VerifyInbox(c, proof, InboxPublic(agora, leaf, inbox, action)) {
        return Err(Rejected);
      }
      match action {
        case Retire =>
          if leaf !in inboxes || inboxes[leaf].key != inbox {
            return Err(Rejected);
          }
          inboxes := inboxes - {leaf};
        case Renew =>
          var landed := exists k :: k in classes && leaf in classes[k].positions;
          if !landed || leaf in revokedLeaves {
            return Err(Rejected);
          }
          inboxes := inboxes[leaf := InboxRecord(inbox, epoch)];
      }
      return Ok(Recorded);
    }

    method IssueChallenge(entropy: Bytes32) returns (r: Result<Response>)
      requires Valid()
      modifies this
      ensures Valid() && (View(), r) == Operator.IssueChallenge(old(View()), entropy)
    {
      hide Core;
      IntakeKeeps(c, View(), entropy, entropy, entropy);
      if dissolved {
        return Err(Rejected);
      }
      challenges := challenges + {entropy};
      return Ok(Challenged);
    }

    /** A challenge is consumed on presentation, whether or not the proof is good. */
    method RedeemAccess(class_: Bytes32, proof: StubProof<ChainWitness>, challenge: Bytes32) returns (r: Result<Response>)
      requires Valid()
      modifies this
      ensures Valid() && (View(), r) == Operator.RedeemAccess(c, old(View()), class_, proof, challenge)
    {
      hide Core, VerifyChain, RootsIn;
      ghost var s := View();
      RedeemKeeps(c, s, class_, proof, challenge);
      if dissolved || challenge !in challenges {
        return Err(Rejected);
      }
      challenges := challenges - {challenge};
      var roots := RootsIn(View(), epoch, class_);
      assert roots == RootsIn(s, s.epoch, class_) by { SameRoots(s, View(), class_); }
      if roots.None? {
        return Err(Rejected);
      }
      if !VerifyChain(c, proof, ChainPublic(agora, epoch, roots.value.class_, roots.value.revocation, roots.value.spend,
                                            VerificationAccess(challenge))) {
        return Err(Rejected);
      }
      return Ok(Granted(epoch));
    }
  }

  /** What a boundary gives, landing by landing. */
  lemma AdvanceIs(c: Scheme, s: State)
    ensures var landed := LandAll(c, Landing(s.classes, s.inboxes, s.stagedInboxes, true), s.staged.admissions, s.epoch + 1);
            Operator.AdvanceEpoch(c, s) ==
            if s.dissolved then (s, Err(Rejected))
            else if s.epoch + 1 >= U64 then (s.(staged := NOTHING_STAGED), Err(Unavailable))
            else if !landed.ok then (AfterLanding(s, landed), Err(Unavailable))
            else (Snapshotted(c, Turned(c, AfterLanding(s, landed), s.staged)), Ok(Advanced))
  {
    hide Snapshotted, Turned, LandAll;
  }

  /** The state with one more revocation staged. */
  function Revoking(s: State, leaf: Bytes32): State {
    s.(staged := s.staged.(revocations := s.staged.revocations + [leaf]))
  }

  /** A consumed revocation's outcome. */
  function Revocated(c: Scheme, s: State, leaf: Bytes32): Outcome {
    var (after, outcome) := Operator.AdvanceEpoch(c, Revoking(s, leaf));
    (after, if outcome.Ok? then Ok(Revoked) else outcome)
  }

  /** What executing gives, by decision. */
  lemma ExecuteIs(c: Scheme, s: State, subject: Bytes32)
    ensures Operator.Execute(c, s, subject) ==
            if s.dissolved || subject !in s.proposals || |s.proposals[subject].approvals| < s.quorum then (s, Err(Rejected))
            else
              var consumed := s.(proposals := s.proposals - {subject});
              match s.proposals[subject].decision
              case Policy(_, _, _) => ActivatePolicy(c, consumed, s.proposals[subject].decision)
              case Revocation(leaf) => Revocated(c, consumed, leaf)
              case Dissolution => (Operator.Dissolve(c, consumed), Ok(Dissolved))
              case InboxHorizon(boundaries) => (consumed.(horizon := boundaries), Ok(HorizonSet(boundaries)))
  {
    hide ActivatePolicy, Operator.AdvanceEpoch, Operator.Dissolve;
  }

  lemma SameRoots(s: State, s': State, k: Bytes32)
    requires s'.history == s.history && s'.epoch == s.epoch
    ensures RootsIn(s', s'.epoch, k) == RootsIn(s, s.epoch, k)
  {
  }

  lemma SpendKeysGrow(spends: seq<Bytes32>, i: nat)
    requires i < |spends|
    ensures SpendKeys(spends[..i + 1]) == SpendKeys(spends[..i]) + {OrderOf(spends[i])}
  {
    hide OrderOf;
    assert spends[..i + 1] == spends[..i] + [spends[i]];
    SpendKeysAppend(spends[..i], spends[i]);
  }

  lemma SpendKeysAppend(spends: seq<Bytes32>, more: Bytes32)
    ensures SpendKeys(spends + [more]) == SpendKeys(spends) + {OrderOf(more)}
  {
    hide OrderOf;
    assert (spends + [more])[|spends|] == more;
    forall k | k in SpendKeys(spends) ensures k in SpendKeys(spends + [more]) {
      var i :| 0 <= i < |spends| && OrderOf(spends[i]) == k;
      assert (spends + [more])[i] == spends[i];
    }
  }

  lemma RevocationKeysGrow(c: Scheme, leaves: seq<Bytes32>, i: nat)
    requires i < |leaves|
    ensures RevocationKeys(c, leaves[..i + 1]) == RevocationKeys(c, leaves[..i]) + {OrderOf(RevocationKey(c, leaves[i]))}
    ensures Members(leaves[..i + 1]) == Members(leaves[..i]) + {leaves[i]}
  {
    hide OrderOf, RevocationKey;
    assert leaves[..i + 1] == leaves[..i] + [leaves[i]];
    RevocationKeysAppend(c, leaves[..i], leaves[i]);
  }

  lemma RevocationKeysAppend(c: Scheme, leaves: seq<Bytes32>, more: Bytes32)
    ensures RevocationKeys(c, leaves + [more]) == RevocationKeys(c, leaves) + {OrderOf(RevocationKey(c, more))}
  {
    hide OrderOf, RevocationKey;
    assert (leaves + [more])[|leaves|] == more;
    forall k | k in RevocationKeys(c, leaves) ensures k in RevocationKeys(c, leaves + [more]) {
      var i :| 0 <= i < |leaves| && OrderOf(RevocationKey(c, leaves[i])) == k;
      assert (leaves + [more])[i] == leaves[i];
    }
  }

  function Evens(count: nat): (evens: seq<nat>)
    ensures |evens| == count
  {
    seq(count, i requires 0 <= i < count => 2 * i)
  }

  function HeldPositions(cs: ClassState): set<nat> {
    set leaf | leaf in cs.positions :: cs.positions[leaf]
  }

  /** A laid-out class's positions are the even slots, in order. */
  lemma EvenPositions(c: Scheme, cs: ClassState)
    requires ClassOk(c, cs)
    ensures Sorted(HeldPositions(cs)) == Evens(cs.occupied) && |ByPosition(cs)| == cs.occupied
  {
    hide ClassOk, HeldPositions;
    forall p ensures p in Sorted(HeldPositions(cs)) <==> p in Evens(cs.occupied) {
      EvenHeld(c, cs, p);
    }
    EvensAscend(cs.occupied);
    AscendingUnique(Sorted(HeldPositions(cs)), Evens(cs.occupied));
  }

  lemma EvensAscend(count: nat)
    ensures StrictlyAscending(Evens(count))
  {
  }

  lemma EvenHeld(c: Scheme, cs: ClassState, p: nat)
    requires ClassOk(c, cs)
    ensures p in HeldPositions(cs) <==> p in Evens(cs.occupied)
  {
    if p in Evens(cs.occupied) {
      assert cs.leaves[p] in cs.positions && cs.positions[cs.leaves[p]] == p;
    }
    if p % 2 == 0 && p < 2 * cs.occupied {
      assert Evens(cs.occupied)[p / 2] == p;
    }
  }

  lemma SlotAt(c: Scheme, cs: ClassState, i: nat)
    requires ClassOk(c, cs) && i < cs.occupied
    ensures Evens(cs.occupied)[i] == 2 * i
    ensures exists leaf :: leaf in cs.positions && cs.positions[leaf] == 2 * i
    ensures forall leaf :: leaf in cs.positions && cs.positions[leaf] == 2 * i ==> ByPosition(cs)[i] == (2 * i, leaf)
  {
    var leaf := cs.leaves[2 * i];
    assert leaf in cs.positions && cs.positions[leaf] == 2 * i;
  }

  lemma TurnKeepsClasses(c: Scheme, s: State, taken: Staged)
    ensures Turned(c, s, taken).classes == s.classes && Turned(c, s, taken).epoch == s.epoch + 1
  {
    hide SpendKeys, RevocationKeys, Members;
  }

  lemma SnapshotRecords(c: Scheme, s: State)
    ensures s.epoch in Snapshotted(c, s).history && Snapshotted(c, s).epoch == s.epoch && Snapshotted(c, s).classes == s.classes
  {
    hide LogSnapshot, SnapshotOf;
  }
}
