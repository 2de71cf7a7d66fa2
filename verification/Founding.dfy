/** Exactly which foundings start an agora in its invariant, and when a migration is refused
    whole. */
module Foundings {
  import opened Wrappers
  import opened Bytes
  import opened Crypto
  import opened Statements
  import opened Operator
  import opened OperatorLayout
  import Exclusion
  import Log

  // ---- Founder classes ----

  /** The founder's landings, as staged admissions would be written. */
  function Landings(founder: Bytes32, into: seq<Bytes32>): (adm: Admissions)
    ensures |adm| == |into|
  {
    seq(|into|, i requires 0 <= i < |into| => (into[i], founder))
  }

  ghost predicate Even(classes: map<Bytes32, ClassState>) {
    forall k :: k in classes ==> |classes[k].leaves| == 2 * classes[k].occupied
  }

  /** Each listing of a class lands the founder in it once more. */
  lemma {:induction false} FounderGrows(c: Scheme, classes: map<Bytes32, ClassState>, founder: Bytes32, into: seq<Bytes32>, k: Bytes32)
    requires Primitives(c) && Even(classes) && k in classes && LandFounder(c, classes, founder, into).Some?
    ensures k in LandFounder(c, classes, founder, into).value
    ensures LandFounder(c, classes, founder, into).value[k].leaves
         == classes[k].leaves + Padded(StagedFor(Landings(founder, into), k))
    decreases |into|
  {
    var adm := Landings(founder, into);
    if |into| > 0 {
      var cs := classes[into[0]];
      CapacityIsHalf(c);
      LandValue(c, cs, founder);
      FounderGrows(c, classes[into[0] := WithLeaf(cs, founder)], founder, into[1..], k);
      assert adm[1..] == Landings(founder, into[1..]);
      PaddedSplit(adm, k, classes[k].leaves);
    } else {
      assert classes[k].leaves + [] == classes[k].leaves;
    }
  }

  lemma {:induction false} AllFounder(founder: Bytes32, into: seq<Bytes32>, k: Bytes32, i: nat)
    requires i < StagedIn(Landings(founder, into), k)
    ensures StagedFor(Landings(founder, into), k)[i] == founder
  {
    if |into| > 0 {
      var adm := Landings(founder, into);
      assert adm[1..] == Landings(founder, into[1..]);
      if into[0] == k {
        if i > 0 {
          AllFounder(founder, into[1..], k, i - 1);
        }
      } else {
        AllFounder(founder, into[1..], k, i);
      }
    }
  }

  lemma ListedTwice(founder: Bytes32, into: seq<Bytes32>, i: nat, j: nat)
    requires i < j < |into| && into[i] == into[j]
    ensures StagedIn(Landings(founder, into), into[i]) >= 2
  {
    var adm := Landings(founder, into);
    StagedAt(adm[..j], i);
    StagedAt(adm, j);
    assert adm[..j][..i] == adm[..i] && adm[..j][i].0 == into[i];
  }

  /** A class holding the founder twice has no position that is its leaf's only one. */
  lemma TwiceIsMisplaced(c: Scheme, cs: ClassState, founder: Bytes32)
    requires |cs.leaves| > 2 && cs.leaves[0] == founder && cs.leaves[2] == founder
    ensures !ClassOk(c, cs)
  {
  }

  lemma DuplicateMisplaces(c: Scheme, f: Founding, landed: map<Bytes32, ClassState>, i: nat, j: nat)
    requires Primitives(c) && i < j < |f.founderClasses| && f.founderClasses[i] == f.founderClasses[j]
    requires LandFounder(c, FoundClasses(f.classes), f.founder, f.founderClasses) == Some(landed)
    ensures !ClassesOk(c, landed)
  {
    hide ClassOk;
    var k := f.founderClasses[i];
    FoundedClasses(f.classes);
    ListedIsConfigured(c, FoundClasses(f.classes), f.founder, f.founderClasses, i);
    FounderGrows(c, FoundClasses(f.classes), f.founder, f.founderClasses, k);
    ListedTwice(f.founder, f.founderClasses, i, j);
    var staged := StagedFor(Landings(f.founder, f.founderClasses), k);
    AllFounder(f.founder, f.founderClasses, k, 0);
    AllFounder(f.founder, f.founderClasses, k, 1);
    PaddedAt(staged, 0);
    PaddedAt(staged, 1);
    assert FoundClasses(f.classes)[k].leaves == [] && [] + Padded(staged) == Padded(staged);
    TwiceIsMisplaced(c, landed[k], f.founder);
    assert k in Misplaced(c, landed);
  }

  lemma {:induction false} ListedIsConfigured(c: Scheme, classes: map<Bytes32, ClassState>, founder: Bytes32, into: seq<Bytes32>, i: nat)
    requires LandFounder(c, classes, founder, into).Some? && i < |into|
    ensures into[i] in classes
    decreases |into|
  {
    if i > 0 {
      ListedIsConfigured(c, classes[into[0] := Land(c, classes[into[0]], founder).value], founder, into[1..], i - 1);
    }
  }

  lemma CreatedClasses(c: Scheme, f: Founding, tagSecret: Bytes32, statement: Bytes32, logSeed: Option<Bytes32>)
    requires Created(c, f, tagSecret, statement, logSeed).Ok?
    ensures LandFounder(c, FoundClasses(f.classes), f.founder, f.founderClasses)
         == Some(Created(c, f, tagSecret, statement, logSeed).value.classes)
  {
    hide LogSnapshot, SnapshotOf, FoundClasses, LandFounder;
  }

  /** A founding the operator accepts starts in the invariant if and only if it lists no founder
      class twice. */
  lemma FoundingExact(c: Scheme, f: Founding, tagSecret: Bytes32, statement: Bytes32, logSeed: Option<Bytes32>)
    requires Primitives(c) && f.genesis < U64 && Created(c, f, tagSecret, statement, logSeed).Ok?
    ensures Core(c, Created(c, f, tagSecret, statement, logSeed).value) <==> DistinctIds(f.founderClasses)
  {
    hide Core, Created, ClassesOk, StagedOk;
    if DistinctIds(f.founderClasses) {
      CreatedOk(c, f, tagSecret, statement, logSeed);
    } else {
      var i, j :| 0 <= i < j < |f.founderClasses| && f.founderClasses[i] == f.founderClasses[j];
      CreatedClasses(c, f, tagSecret, statement, logSeed);
      var s := Created(c, f, tagSecret, statement, logSeed).value;
      DuplicateMisplaces(c, f, s.classes, i, j);
      if Core(c, s) {
        CoreLayout(c, s);
      }
    }
  }

  // ---- Which foundings are accepted ----

  /** The classes a founding lists. */
  function Listed(classes: seq<(Bytes32, ClassPolicy)>): set<Bytes32> {
    set i | 0 <= i < |classes| :: classes[i].0
  }

  lemma {:induction false} FoundedKeys(classes: seq<(Bytes32, ClassPolicy)>)
    ensures FoundClasses(classes).Keys == Listed(classes)
  {
    if |classes| > 0 {
      var init := classes[..|classes| - 1];
      FoundedKeys(init);
      assert Listed(classes) == Listed(init) + {classes[|classes| - 1].0} by {
        assert forall i :: 0 <= i < |init| ==> init[i] == classes[i];
      }
    }
  }

  /** A founder class that is listed once has room for the founder. */
  lemma {:induction false} FounderFits(c: Scheme, classes: map<Bytes32, ClassState>, founder: Bytes32, into: seq<Bytes32>)
    requires Primitives(c) && DistinctIds(into)
    requires forall k :: k in classes && k in into ==> classes[k].leaves == [] && classes[k].occupied == 0
    ensures LandFounder(c, classes, founder, into).Some? <==> forall i :: 0 <= i < |into| ==> into[i] in classes
    decreases |into|
  {
    hide Capacity, Land;
    if |into| > 0 && into[0] in classes {
      var cs := classes[into[0]];
      CapacityIsHalf(c);
      LandValue(c, cs, founder);
      var rest := into[1..];
      FounderFits(c, classes[into[0] := WithLeaf(cs, founder)], founder, rest);
      assert forall i :: 0 <= i < |into| ==> into[i] == if i == 0 then into[0] else rest[i - 1];
      assert forall i :: 0 <= i < |rest| ==> rest[i] == into[i + 1];
    }
  }

  /** The class fields of a founded agora. */
  ghost predicate ClassesFounded(f: Founding, classes: map<Bytes32, ClassState>) {
    && classes.Keys == Listed(f.classes)
    && (forall k :: k in classes ==>
          && classes[k].leaves == (if k in f.founderClasses then [f.founder, PAD] else [])
          && (k, classes[k].policy) in f.classes && classes[k].version == 1)
  }

  lemma FoundedClassesStand(c: Scheme, f: Founding, landed: map<Bytes32, ClassState>)
    requires Primitives(c) && DistinctIds(f.founderClasses)
    requires LandFounder(c, FoundClasses(f.classes), f.founder, f.founderClasses) == Some(landed)
    ensures ClassesFounded(f, landed)
  {
    hide FoundClasses, LandFounder, Listed;
    FoundedKeys(f.classes);
    FoundedClasses(f.classes);
    FounderLands(c, FoundClasses(f.classes), f.founder, f.founderClasses);
    forall k | k in landed
      ensures landed[k].leaves == (if k in f.founderClasses then [f.founder, PAD] else [])
      ensures (k, landed[k].policy) in f.classes && landed[k].version == 1
    {
      assert Founded(FoundClasses(f.classes)[k], k, f.classes);
    }
  }

  /** The other fields: nothing open, staged, spent or revoked, and a log if one was asked for. */
  ghost predicate StandsFounded(f: Founding, tagSecret: Bytes32, statement: Bytes32, logSeed: Option<Bytes32>, s: State) {
    && s.agora == f.agora && s.epoch == f.genesis && s.quorum == 1 && s.horizon == 365 && !s.dissolved
    && NothingOpen(s) && s.pending == {} && s.revocations == {} && s.spends == {} && s.revokedLeaves == {}
    && s.inboxes == map[f.founder := InboxRecord(f.founderInbox, f.genesis)] && s.stagedInboxes == map[]
    && s.tagSecret == tagSecret && s.statementSeed == MintSigningSecret(statement)
    && (s.log.Some? <==> logSeed.Some?)
  }

  lemma CreatedStands(c: Scheme, f: Founding, tagSecret: Bytes32, statement: Bytes32, logSeed: Option<Bytes32>)
    requires Created(c, f, tagSecret, statement, logSeed).Ok?
    ensures StandsFounded(f, tagSecret, statement, logSeed, Created(c, f, tagSecret, statement, logSeed).value)
  {
    hide LogSnapshot, SnapshotOf, FoundClasses, LandFounder, PolicyConsistent;
    var s := Created(c, f, tagSecret, statement, logSeed).value;
    LogAsked(c, if logSeed.None? then None else Some(Log.LogState(MintSigningSecret(logSeed.value), [], [])), f.genesis,
             SnapshotOf(c, s.classes, {}, {}));
  }

  lemma LogAsked(c: Scheme, log: Option<Log.LogState>, epoch: nat, snap: Snapshot)
    ensures LogSnapshot(c, log, epoch, snap).Some? <==> log.Some?
  {
    hide LogClasses, InOrder, Log.Appended;
  }

  lemma CreatedWhen(c: Scheme, f: Founding, tagSecret: Bytes32, statement: Bytes32, logSeed: Option<Bytes32>)
    ensures var r := Created(c, f, tagSecret, statement, logSeed);
            && (r.Ok? <==> |f.classes| > 0 && PolicyConsistent(FoundClasses(f.classes), f.classes)
                           && LandFounder(c, FoundClasses(f.classes), f.founder, f.founderClasses).Some?)
            && (r.Err? ==> r == Err(Malformed))
  {
    hide Snapshotted, FoundClasses, LandFounder, PolicyConsistent;
  }

  /** A founding that lists no founder class twice is accepted exactly when it lists a class, every
      listed policy asks at least one voucher of a class it lists, and every founder class is listed;
      any other is malformed. The agora then stands at its genesis epoch with a quorum of one and the
      default horizon, its classes just those listed, the founder in its own and registered under its
      own inbox, and nothing else. */
  lemma FoundingAnswer(c: Scheme, f: Founding, tagSecret: Bytes32, statement: Bytes32, logSeed: Option<Bytes32>)
    requires Primitives(c) && DistinctIds(f.founderClasses)
    ensures var r := Created(c, f, tagSecret, statement, logSeed);
            && (r.Ok? <==>
                  && |f.classes| > 0
                  && (forall i :: 0 <= i < |f.classes| ==> f.classes[i].1.threshold >= 1 && f.classes[i].1.voucherClass in Listed(f.classes))
                  && (forall i :: 0 <= i < |f.founderClasses| ==> f.founderClasses[i] in Listed(f.classes)))
            && (r.Err? ==> r == Err(Malformed))
            && (r.Ok? ==> ClassesFounded(f, r.value.classes) && StandsFounded(f, tagSecret, statement, logSeed, r.value))
  {
    hide Created, FoundClasses, LandFounder, Listed, ClassesFounded, StandsFounded, Founded;
    FoundedKeys(f.classes);
    FoundedEmpty(f.classes);
    FounderFits(c, FoundClasses(f.classes), f.founder, f.founderClasses);
    CreatedWhen(c, f, tagSecret, statement, logSeed);
    if Created(c, f, tagSecret, statement, logSeed).Ok? {
      CreatedClasses(c, f, tagSecret, statement, logSeed);
      FoundedClassesStand(c, f, Created(c, f, tagSecret, statement, logSeed).value.classes);
      CreatedStands(c, f, tagSecret, statement, logSeed);
    }
  }

  lemma FoundedEmpty(classes: seq<(Bytes32, ClassPolicy)>)
    ensures forall k :: k in FoundClasses(classes) ==> FoundClasses(classes)[k].leaves == [] && FoundClasses(classes)[k].occupied == 0
  {
    hide FoundClasses;
    FoundedClasses(classes);
    forall k | k in FoundClasses(classes)
      ensures FoundClasses(classes)[k].leaves == [] && FoundClasses(classes)[k].occupied == 0
    {
      assert Founded(FoundClasses(classes)[k], k, classes);
    }
  }

  // ---- A migration is staged whole or refused whole ----

  /** Every check before staging passes. */
  predicate Admissible(c: Scheme, s: State, k: Bytes32, proof: StubProof<MigrationWitness>, spend: Bytes32, successor: Bytes32) {
    && !s.dissolved
    && Exclusion.OrderOf(spend) !in s.spends && spend !in s.staged.spends
    && k in s.classes && successor !in s.classes[k].positions
    && RootsIn(s, s.epoch, k).Some?
    && VerifyMigration(c, proof, MigrationPublicOf(s, RootsIn(s, s.epoch, k).value, spend, successor))
  }

  /** The successor is staged but for its spend: what a refusal after staging leaves behind. */
  function HalfStaged(s: State, k: Bytes32, successor: Bytes32): State {
    s.(staged := s.staged.(admissions := s.staged.admissions + [(k, successor)]))
  }

  /** A refused migration changes something if and only if this is the last epoch a u64 names and
      every check, staging's own included, passes: the successor then stays staged without its
      spend. An accepted one stages exactly successor, spend and inbox. */
  lemma MigrationIsWhole(c: Scheme, s: State, k: Bytes32, proof: StubProof<MigrationWitness>,
                         spend: Bytes32, successor: Bytes32, inbox: Bytes32)
    ensures var (s', answer) := Migrate(c, s, k, proof, spend, successor, inbox);
            && (answer.Err? && s' != s <==>
                  && s.epoch + 1 >= U64
                  && Admissible(c, s, k, proof, spend, successor)
                  && Remaining(c, s, k) != 0 && (k, successor) !in s.staged.admissions)
            && (answer.Err? && s' != s ==> s' == HalfStaged(s, k, successor))
            && (answer.Ok? ==>
                  s' == s.(staged := Staged(s.staged.admissions + [(k, successor)], s.staged.spends + [spend], s.staged.revocations),
                           stagedInboxes := s.stagedInboxes[successor := inbox]))
  {
    hide VerifyMigration, RootsIn, Remaining, StagedIn;
    assert s.staged.admissions + [(k, successor)] != s.staged.admissions;
  }
}
