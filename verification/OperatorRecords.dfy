/** What the operator's log says of every run: each epoch's roots under their own names, and each
    policy change carried out, at its epoch and version. */
module OperatorRecords {
  import opened Wrappers
  import opened Bytes
  import opened Crypto
  import opened Ascending
  import opened Exclusion
  import opened Statements
  import opened Decisions
  import opened Operator
  import opened OperatorLayout
  import opened OperatorRuns
  import opened OperatorBallots
  import opened OperatorReceipts
  import opened OperatorMigrations
  import opened OperatorLog
  import opened OperatorSafety
  import opened OperatorMembership
  import opened OperatorSessions
  import opened OperatorStanding
  import opened OperatorPolicies
  import opened Log

  // ---- Identifiers in order ----

  /** Byte strings as they sort: the first byte that differs decides. */
  ghost predicate Precedes(a: Bytes32, b: Bytes32) {
    exists i :: 0 <= i < 32 && FirstAbove(a, b, i)
  }

  predicate FirstAbove(a: Bytes32, b: Bytes32, i: nat)
    requires i < 32
  {
    a[..i] == b[..i] && a[i] < b[i]
  }

  lemma FirstDifference(a: Bytes32, b: Bytes32) returns (i: nat)
    requires a != b
    ensures i < 32 && a[..i] == b[..i] && a[i] != b[i]
  {
    var j :| 0 <= j < 32 && a[j] != b[j];
    i := 0;
    while a[i] == b[i]
      invariant i <= j && a[..i] == b[..i]
      decreases j - i
    {
      assert a[..i + 1] == a[..i] + [a[i]] && b[..i + 1] == b[..i] + [b[i]];
      i := i + 1;
    }
  }

  /** The rank of an identifier, split where two differ. */
  lemma RankSplits(a: Bytes32, i: nat)
    requires i < 32
    ensures Rank(a) == LE(Reversed(a)[..31 - i]) + Pow256(31 - i) * (a[i] + 256 * LE(Reversed(a)[32 - i..]))
    ensures LE(Reversed(a)[..31 - i]) < Pow256(31 - i)
  {
    var r := Reversed(a);
    LEConcat(r[..31 - i], r[31 - i..]);
    assert r == r[..31 - i] + r[31 - i..];
    assert r[31 - i..][1..] == r[32 - i..] && r[31 - i..][0] == a[i];
    LEBound(r[..31 - i]);
  }

  lemma RankOrders(a: Bytes32, b: Bytes32)
    requires Rank(a) < Rank(b)
    ensures Precedes(a, b)
  {
    hide Rank;
    var i := FirstDifference(a, b);
    RankSplits(a, i);
    RankSplits(b, i);
    SameTop(a, b, i);
    if b[i] < a[i] {
      Scaled(Pow256(31 - i), b[i] + 256 * LE(Reversed(b)[32 - i..]), a[i] + 256 * LE(Reversed(a)[32 - i..]));
    }
    assert FirstAbove(a, b, i);
  }

  lemma Scaled(p: nat, x: nat, y: nat)
    requires x < y
    ensures p * x + p <= p * y
  {
    assert p * (x + 1) <= p * y;
  }

  lemma SameTop(a: Bytes32, b: Bytes32, i: nat)
    requires i < 32 && a[..i] == b[..i]
    ensures Reversed(a)[32 - i..] == Reversed(b)[32 - i..]
  {
    var x, y := Reversed(a)[32 - i..], Reversed(b)[32 - i..];
    forall j | 0 <= j < i ensures x[j] == y[j] {
      assert a[..i][i - 1 - j] == b[..i][i - 1 - j];
    }
  }

  lemma RankRecovers(id: Bytes32)
    ensures Reversed(ToLE(Rank(id), 32)) == id
  {
    ToLELE(Reversed(id));
  }

  /** The identifiers listed are the set's, each once, in the order their bytes sort. */
  lemma InOrderLists(ids: set<Bytes32>)
    ensures forall id :: id in InOrder(ids) <==> id in ids
    ensures forall i, j :: 0 <= i < j < |InOrder(ids)| ==> Precedes(InOrder(ids)[i], InOrder(ids)[j])
  {
    hide Rank, Reversed, Precedes;
    var ranks := Sorted(set id | id in ids :: Rank(id));
    var order := InOrder(ids);
    forall id ensures id in order <==> id in ids {
      if id in ids {
        assert Rank(id) in ranks;
        var i :| 0 <= i < |ranks| && ranks[i] == Rank(id);
        RankRecovers(id);
        assert order[i] == id;
      }
      if id in order {
        var i :| 0 <= i < |order| && order[i] == id;
        var from := ListedFrom(ids, i);
      }
    }
    forall i, j | 0 <= i < j < |order| ensures Precedes(order[i], order[j]) {
      var a := ListedFrom(ids, i);
      var b := ListedFrom(ids, j);
      RankOrders(a, b);
    }
  }

  lemma ListedFrom(ids: set<Bytes32>, i: nat) returns (id: Bytes32)
    requires i < |InOrder(ids)|
    ensures id in ids && InOrder(ids)[i] == id
    ensures i < |Sorted(set x | x in ids :: Rank(x))| && Sorted(set x | x in ids :: Rank(x))[i] == Rank(id)
  {
    hide Rank, Reversed;
    var ranks := Sorted(set x | x in ids :: Rank(x));
    assert ranks[i] in ranks;
    id :| id in ids && Rank(id) == ranks[i];
    RankRecovers(id);
  }

  // ---- What a snapshot writes ----

  predicate IsRoot(x: LogEntry) {
    x.ClassRoot? || x.ExclusionRoots?
  }

  /** The root entries dated at an epoch, in the order they were written. */
  function RootsDated(entries: seq<LogEntry>, e: nat): seq<LogEntry> {
    if |entries| == 0 then []
    else
      var last := entries[|entries| - 1];
      RootsDated(entries[..|entries| - 1], e) + (if IsRoot(last) && last.epoch == e then [last] else [])
  }

  /** These entries are an epoch's roots: one for each class, under its own name and in the order
      their names sort, and then the two exclusion roots, the revocations' and the spends'. */
  ghost predicate RecordRoots(entries: seq<LogEntry>, e: nat, snap: Snapshot) {
    var n := |entries| - 1;
    && n >= 0 && entries[n] == ExclusionRoots(e, snap.revocation, snap.spend)
    && (forall i :: 0 <= i < n ==>
          && entries[i].ClassRoot? && entries[i].class_ in snap.classRoots
          && entries[i] == ClassRoot(e, entries[i].class_, snap.classRoots[entries[i].class_]))
    && (forall i, j :: 0 <= i < j < n ==> Precedes(entries[i].class_, entries[j].class_))
    && (forall k :: k in snap.classRoots ==> ClassRoot(e, k, snap.classRoots[k]) in entries)
  }

  function ClassEntries(epoch: nat, ids: seq<Bytes32>, roots: map<Bytes32, Bytes32>): (r: seq<LogEntry>)
    requires forall i :: 0 <= i < |ids| ==> ids[i] in roots
  {
    seq(|ids|, i requires 0 <= i < |ids| => ClassRoot(epoch, ids[i], roots[ids[i]]))
  }

  lemma {:induction false} ClassesWritten(c: Scheme, log: LogState, epoch: nat, ids: seq<Bytes32>, roots: map<Bytes32, Bytes32>)
    requires forall i :: 0 <= i < |ids| ==> ids[i] in roots
    ensures LogClasses(c, log, epoch, ids, roots).entries == log.entries + ClassEntries(epoch, ids, roots)
  {
    hide ChainStep, HeadMessage;
    if |ids| > 0 {
      ClassesWritten(c, log, epoch, ids[..|ids| - 1], roots);
      assert ClassEntries(epoch, ids, roots)
          == ClassEntries(epoch, ids[..|ids| - 1], roots) + [ClassRoot(epoch, ids[|ids| - 1], roots[ids[|ids| - 1]])];
    } else {
      assert log.entries + ClassEntries(epoch, ids, roots) == log.entries;
    }
  }

  /** The entries one snapshot adds are its epoch's roots. */
  lemma SnapshotWritten(c: Scheme, log: LogState, epoch: nat, snap: Snapshot) returns (block: seq<LogEntry>)
    ensures LogSnapshot(c, Some(log), epoch, snap).Some?
    ensures LogSnapshot(c, Some(log), epoch, snap).value.entries == log.entries + block
    ensures RecordRoots(block, epoch, snap)
  {
    hide InOrder, LogClasses, ChainStep, HeadMessage, Precedes;
    var ids := InOrder(snap.classRoots.Keys);
    InOrderLists(snap.classRoots.Keys);
    forall i | 0 <= i < |ids| ensures ids[i] in snap.classRoots {
      assert ids[i] in ids;
    }
    ClassesWritten(c, log, epoch, ids, snap.classRoots);
    block := ClassEntries(epoch, ids, snap.classRoots) + [ExclusionRoots(epoch, snap.revocation, snap.spend)];
    forall k | k in snap.classRoots ensures ClassRoot(epoch, k, snap.classRoots[k]) in block {
      assert k in ids;
      var i :| 0 <= i < |ids| && ids[i] == k;
      assert block[i] == ClassRoot(epoch, k, snap.classRoots[k]);
    }
  }

  // ---- What a step writes ----

  /** Entries appended to a log, and none lost. */
  ghost predicate Adds(before: Option<LogState>, after: Option<LogState>, more: seq<LogEntry>) {
    && (before.Some? <==> after.Some?)
    && (before.Some? ==> after.value.entries == before.value.entries + more)
  }

  lemma BoundaryWrites(c: Scheme, s: State) returns (block: seq<LogEntry>)
    ensures Adds(s.log, Boundary(c, s).log, block)
    ensures s.epoch + 1 in Boundary(c, s).history
    ensures RecordRoots(block, s.epoch + 1, Boundary(c, s).history[s.epoch + 1])
    ensures forall e :: e != s.epoch + 1 ==> (e in Boundary(c, s).history <==> e in s.history)
    ensures forall e :: e != s.epoch + 1 && e in s.history ==> Boundary(c, s).history[e] == s.history[e]
  {
    hide RecordRoots, LandedAll, SnapshotOf, LogSnapshot, SpendKeys, RevocationKeys;
    var turned := Turned(c, AfterLanding(s, LandedAll(c, s)), s.staged);
    var snap := SnapshotOf(c, turned.classes, turned.revocations, turned.spends);
    assert Boundary(c, s) == turned.(log := LogSnapshot(c, s.log, s.epoch + 1, snap), history := s.history[s.epoch + 1 := snap]);
    if s.log.Some? {
      block := SnapshotWritten(c, s.log.value, s.epoch + 1, snap);
    } else {
      NoLog(c, s.epoch + 1, snap);
      block := SnapshotWritten(c, LogState(s.tagSecret, [], []), s.epoch + 1, snap);
    }
  }

  /** What a step that crosses no boundary writes: the version a policy change reached, or the
      freeze. */
  function Wrote(c: Scheme, s: State, step: Step): seq<LogEntry> {
    if !step.Executing? || step.subject !in s.proposals || Apply(c, s, step).1.Err? then []
    else match s.proposals[step.subject].decision
      case Policy(k, _, _) => if k in s.classes then [PolicyChanged(s.epoch, k, s.classes[k].version + 1)] else []
      case Dissolution => [LogEntry.Frozen(s.epoch)]
      case _ => []
  }

  lemma AppendedEntries(c: Scheme, log: LogState, entry: LogEntry)
    ensures Appended(c, log, entry).entries == log.entries + [entry]
  {
  }

  lemma DecisionWrites(c: Scheme, s: State, subject: Bytes32)
    requires Executes(s, subject) && DecisionOk(s.classes, s.proposals[subject].decision)
    requires !s.proposals[subject].decision.Revocation?
    ensures Adds(s.log, Execute(c, s, subject).0.log, Wrote(c, s, Executing(subject)))
  {
    hide AdvanceEpoch, Appended;
    if s.log.Some? {
      assert s.log.value.entries + [] == s.log.value.entries;
      AppendedEntries(c, s.log.value, LogEntry.Frozen(s.epoch));
      match s.proposals[subject].decision {
        case Policy(k, _, _) => AppendedEntries(c, s.log.value, PolicyChanged(s.epoch, k, s.classes[k].version + 1));
        case _ =>
      }
    }
  }

  lemma AdvanceWrites(c: Scheme, s: State)
    requires Primitives(c) && Core(c, s) && !CanCross(s)
    ensures AdvanceEpoch(c, s).0.log == s.log && AdvanceEpoch(c, s).1.Err?
  {
    hide Core, Boundary, LandedAll;
    AdvanceValue(c, s);
  }

  lemma RefusedRevocationWrites(c: Scheme, s: State, subject: Bytes32)
    requires Primitives(c) && Core(c, s) && Executes(s, subject) && s.proposals[subject].decision.Revocation?
    requires !CanCross(Consumed(s, subject))
    ensures Execute(c, s, subject).0.log == s.log && Wrote(c, s, Executing(subject)) == []
  {
    hide Core, AdvanceEpoch;
    ConsumedKeeps(c, s, subject);
    AdvanceWrites(c, Consumed(s, subject));
  }

  lemma NothingWritten(s: State, s': State)
    requires s'.log == s.log
    ensures Adds(s.log, s'.log, [])
  {
    if s.log.Some? {
      assert s.log.value.entries + [] == s.log.value.entries;
    }
  }

  lemma ExecuteWrites(c: Scheme, s: State, subject: Bytes32)
    requires Primitives(c) && Core(c, s) && Crossing(s, Executing(subject)).None?
    ensures Adds(s.log, Execute(c, s, subject).0.log, Wrote(c, s, Executing(subject)))
  {
    hide Core, Execute, Adds, Wrote;
    if !Executes(s, subject) {
      RefusedWrites(c, s, subject);
      NothingWritten(s, s);
    } else if s.proposals[subject].decision.Revocation? {
      RefusedRevocationWrites(c, s, subject);
      NothingWritten(s, Execute(c, s, subject).0);
    } else {
      CoreGoverned(c, s);
      assert ProposalOk(s.classes, s.proposals[subject]);
      DecisionWrites(c, s, subject);
    }
  }

  lemma RefusedWrites(c: Scheme, s: State, subject: Bytes32)
    requires !Executes(s, subject)
    ensures Execute(c, s, subject).0 == s && Wrote(c, s, Executing(subject)) == []
  {
  }

  lemma CertifyingWrites(c: Scheme, s: State, leaf: Bytes32, inbox: Bytes32, action: InboxAction, proof: StubProof<InboxWitness>)
    ensures InboxCertificate(c, s, leaf, inbox, action, proof).0.log == s.log
  {
    hide VerifyInbox, Landed;
  }

  /** Between boundaries a step writes just what it decides. */
  lemma StepWrites(c: Scheme, s: State, step: Step)
    requires Primitives(c) && Core(c, s) && Crossing(s, step).None?
    ensures Adds(s.log, Apply(c, s, step).0.log, Wrote(c, s, step))
  {
    hide Core, Adds, Crossing;
    if step.Executing? {
      hide Execute, Wrote;
      ExecuteWrites(c, s, step.subject);
    } else if step.Certifying? {
      hide InboxCertificate;
      CertifyingWrites(c, s, step.leaf, step.inbox, step.action, step.instruction);
      NothingWritten(s, Apply(c, s, step).0);
    } else {
      hide Apply;
      StepStands(c, s, step);
      NothingWritten(s, Apply(c, s, step).0);
    }
  }

  // ---- Every epoch's roots, in every run ----

  lemma {:induction false} RootsDatedAppend(a: seq<LogEntry>, b: seq<LogEntry>, e: nat)
    ensures RootsDated(a + b, e) == RootsDated(a, e) + RootsDated(b, e)
  {
    if |b| > 0 {
      RootsDatedAppend(a, b[..|b| - 1], e);
      assert (a + b)[..|a + b| - 1] == a + b[..|b| - 1];
    } else {
      assert a + b == a;
    }
  }

  lemma {:induction false} AllDated(block: seq<LogEntry>, at: nat, e: nat)
    requires forall i :: 0 <= i < |block| ==> IsRoot(block[i]) && block[i].epoch == at
    ensures RootsDated(block, e) == if e == at then block else []
  {
    if |block| > 0 {
      AllDated(block[..|block| - 1], at, e);
      assert block == block[..|block| - 1] + [block[|block| - 1]];
    }
  }

  lemma BlockDated(block: seq<LogEntry>, at: nat, snap: Snapshot, e: nat)
    requires RecordRoots(block, at, snap)
    ensures RootsDated(block, e) == if e == at then block else []
  {
    AllDated(block, at, e);
  }

  lemma WroteNoRoots(c: Scheme, s: State, step: Step, e: nat)
    ensures RootsDated(Wrote(c, s, step), e) == []
  {
    hide Apply;
  }

  /** The log says of an epoch exactly the roots recorded for it, and nothing of any other. */
  ghost predicate SaysRoots(s: State, e: nat) {
    s.log.Some? ==>
      if e in s.history then RecordRoots(RootsDated(s.log.value.entries, e), e, s.history[e])
      else RootsDated(s.log.value.entries, e) == []
  }

  lemma CrossingSays(c: Scheme, s: State, step: Step, e: nat)
    requires Primitives(c) && Core(c, s) && Crossing(s, step).Some? && SaysRoots(s, e)
    requires s.epoch + 1 !in s.history
    ensures SaysRoots(Apply(c, s, step).0, e)
  {
    hide Core, Apply, Boundary, RecordRoots;
    CrossingIsBoundary(c, s, step);
    var pre := Crossing(s, step).value;
    CrossingLog(s, step);
    var block := BoundaryWrites(c, pre);
    if s.log.Some? {
      RootsDatedAppend(s.log.value.entries, block, e);
      BlockDated(block, s.epoch + 1, Boundary(c, pre).history[s.epoch + 1], e);
      assert [] + block == block;
      assert RootsDated(s.log.value.entries, e) + [] == RootsDated(s.log.value.entries, e);
    }
  }

  lemma CrossingLog(s: State, step: Step)
    requires Crossing(s, step).Some?
    ensures var pre := Crossing(s, step).value; pre.log == s.log && pre.history == s.history && pre.epoch == s.epoch
  {
  }

  lemma StepSays(c: Scheme, s: State, step: Step, e: nat)
    requires Primitives(c) && Core(c, s) && SaysRoots(s, e) && s.epoch + 1 !in s.history
    ensures SaysRoots(Apply(c, s, step).0, e)
  {
    hide Core, Apply, Crossing, RecordRoots, TreesOf, VouchersOf, Wrote;
    if Crossing(s, step).Some? {
      hide SaysRoots;
      CrossingSays(c, s, step, e);
    } else {
      StepKeepsGround(c, s, step);
      StepWrites(c, s, step);
      WroteNoRoots(c, s, step, e);
      if s.log.Some? {
        RootsDatedAppend(s.log.value.entries, Wrote(c, s, step), e);
        assert RootsDated(s.log.value.entries, e) + [] == RootsDated(s.log.value.entries, e);
      }
    }
  }

  lemma NoNextHistory(c: Scheme, w: World)
    requires Sound(c, w)
    ensures w.s.epoch + 1 !in w.s.history
  {
    hide Core, Growing, RootsOf, VotesOk, ApprovalsOk, ReceiptsOk, EvidenceOk, CountsOk;
  }

  lemma GenesisSays(c: Scheme, start: OperatorSafety.Start, e: nat)
    requires Founds(c, start)
    ensures SaysRoots(Genesis(c, start).s, e)
  {
    hide LogSnapshot, SnapshotOf, RootsOf, TreesOf, RecordRoots, FoundClasses, LandFounder, Created, Founds;
    var f := start.founding;
    var s := Genesis(c, start).s;
    FoundsCreates(c, start);
    CreatedFields(c, f, start.tagSecret, start.statement, start.logSeed);
    SnapshotIsRoots(c, s);
    if start.logSeed.Some? {
      var block := SnapshotWritten(c, EmptyLog(start.logSeed).value, s.epoch, SnapshotOf(c, s.classes, {}, {}));
      assert [] + block == block;
      BlockDated(block, s.epoch, SnapshotOf(c, s.classes, {}, {}), e);
    } else {
      NoLog(c, s.epoch, SnapshotOf(c, s.classes, {}, {}));
    }
  }

  lemma FoundsCreates(c: Scheme, start: OperatorSafety.Start)
    requires Founds(c, start)
    ensures Created(c, start.founding, start.tagSecret, start.statement, start.logSeed).Ok?
  {
    hide Created;
  }

  lemma {:induction false} RunSays(c: Scheme, w: World, steps: seq<Step>, e: nat)
    requires Primitives(c) && Sound(c, w) && SaysRoots(w.s, e)
    ensures SaysRoots(Run(c, w, steps).s, e)
  {
    hide Sound, SaysRoots, Next, Apply;
    if |steps| > 0 {
      var init, step := steps[..|steps| - 1], steps[|steps| - 1];
      RunSays(c, w, init, e);
      RunKeepsSound(c, w, init);
      SoundHasCore(c, Run(c, w, init));
      NoNextHistory(c, Run(c, w, init));
      StepSays(c, Run(c, w, init).s, step, e);
      NextFields(c, Run(c, w, init), step);
    }
  }

  /** In every run with a log: of every epoch from genesis to now the log's root entries are exactly
      one per class, that class's root under its own name, in the order the names sort, and then the
      revocation root and the spend root under theirs; of any other epoch there are none. */
  lemma RootsAreLogged(c: Scheme, w: World, e: nat)
    requires Primitives(c) && Reachable(c, w) && w.s.log.Some?
    ensures w.g.genesis <= e <= w.s.epoch <==> e in w.s.history
    ensures e in w.s.history ==> RecordRoots(RootsDated(w.s.log.value.entries, e), e, w.s.history[e])
    ensures e !in w.s.history ==> RootsDated(w.s.log.value.entries, e) == []
  {
    hide Sound, Founds, Genesis, RecordRoots, RootsDated, SaysRoots;
    ReachableIsSound(c, w);
    HistorySpan(c, w, e);
    var start, steps :| Founds(c, start) && w == Run(c, Genesis(c, start), steps);
    GenesisSound(c, start);
    GenesisSays(c, start, e);
    RunSays(c, Genesis(c, start), steps, e);
    SaysIs(w.s, e);
  }

  lemma SaysIs(s: State, e: nat)
    requires SaysRoots(s, e) && s.log.Some?
    ensures e in s.history ==> RecordRoots(RootsDated(s.log.value.entries, e), e, s.history[e])
    ensures e !in s.history ==> RootsDated(s.log.value.entries, e) == []
  {
    hide RecordRoots, RootsDated;
  }

  lemma HistorySpan(c: Scheme, w: World, e: nat)
    requires Sound(c, w)
    ensures w.g.genesis <= e <= w.s.epoch <==> e in w.s.history
  {
    hide Core, Growing, RootsOf, VotesOk, ApprovalsOk, ReceiptsOk, EvidenceOk, CountsOk;
  }

  // ---- Every decision written, in every run ----

  /** The entries that record no root. */
  function Decided(entries: seq<LogEntry>): seq<LogEntry> {
    if |entries| == 0 then []
    else
      var last := entries[|entries| - 1];
      Decided(entries[..|entries| - 1]) + (if IsRoot(last) then [] else [last])
  }

  /** What a run decided, in order: each policy change at its epoch with the version it reached, and
      the freeze. */
  function Written(c: Scheme, w: World, steps: seq<Step>): seq<LogEntry> {
    if |steps| == 0 then []
    else Written(c, w, steps[..|steps| - 1]) + Wrote(c, Run(c, w, steps[..|steps| - 1]).s, steps[|steps| - 1])
  }

  lemma {:induction false} DecidedAppend(a: seq<LogEntry>, b: seq<LogEntry>)
    ensures Decided(a + b) == Decided(a) + Decided(b)
  {
    if |b| > 0 {
      DecidedAppend(a, b[..|b| - 1]);
      assert (a + b)[..|a + b| - 1] == a + b[..|b| - 1];
    } else {
      assert a + b == a;
    }
  }

  lemma {:induction false} RootsDecideNothing(block: seq<LogEntry>)
    requires forall i :: 0 <= i < |block| ==> IsRoot(block[i])
    ensures Decided(block) == []
  {
    if |block| > 0 {
      RootsDecideNothing(block[..|block| - 1]);
    }
  }

  lemma BlockDecidesNothing(block: seq<LogEntry>, at: nat, snap: Snapshot)
    requires RecordRoots(block, at, snap)
    ensures Decided(block) == []
  {
    RootsDecideNothing(block);
  }

  lemma WroteDecided(c: Scheme, s: State, step: Step)
    ensures Decided(Wrote(c, s, step)) == Wrote(c, s, step)
  {
    hide Apply;
    assert |Wrote(c, s, step)| == 1 ==> Wrote(c, s, step)[..0] == [];
  }

  lemma CrossingWrites(c: Scheme, s: State, step: Step)
    requires Primitives(c) && Core(c, s) && Crossing(s, step).Some? && s.log.Some?
    ensures Apply(c, s, step).0.log.Some?
    ensures Decided(Apply(c, s, step).0.log.value.entries) == Decided(s.log.value.entries)
    ensures Wrote(c, s, step) == []
  {
    hide Core, Apply, Boundary, RecordRoots;
    CrossingIsBoundary(c, s, step);
    var pre := Crossing(s, step).value;
    CrossingLog(s, step);
    var block := BoundaryWrites(c, pre);
    DecidedAppend(s.log.value.entries, block);
    BlockDecidesNothing(block, s.epoch + 1, Boundary(c, pre).history[s.epoch + 1]);
  }

  lemma StepDecides(c: Scheme, s: State, step: Step)
    requires Primitives(c) && Core(c, s) && s.log.Some?
    ensures Apply(c, s, step).0.log.Some?
    ensures Decided(Apply(c, s, step).0.log.value.entries) == Decided(s.log.value.entries) + Wrote(c, s, step)
  {
    hide Core, Apply, Crossing, Wrote;
    if Crossing(s, step).Some? {
      CrossingWrites(c, s, step);
    } else {
      StepWrites(c, s, step);
      WroteDecided(c, s, step);
      DecidedAppend(s.log.value.entries, Wrote(c, s, step));
    }
  }

  lemma GenesisDecided(c: Scheme, start: OperatorSafety.Start)
    requires Founds(c, start) && start.logSeed.Some?
    ensures Genesis(c, start).s.log.Some? && Decided(Genesis(c, start).s.log.value.entries) == []
  {
    hide LogSnapshot, SnapshotOf, RootsOf, TreesOf, RecordRoots, FoundClasses, LandFounder, Created, Founds;
    var f := start.founding;
    var s := Genesis(c, start).s;
    FoundsCreates(c, start);
    CreatedFields(c, f, start.tagSecret, start.statement, start.logSeed);
    var block := SnapshotWritten(c, EmptyLog(start.logSeed).value, s.epoch, SnapshotOf(c, s.classes, {}, {}));
    assert [] + block == block;
    BlockDecidesNothing(block, s.epoch, SnapshotOf(c, s.classes, {}, {}));
  }

  /** In every run of an agora that opted into a log, what the log records besides roots is exactly
      what the run decided: every policy change carried out, once, at its epoch and with the version
      it reached, in order, and the freeze last. */
  lemma {:induction false} DecisionsAreLogged(c: Scheme, start: OperatorSafety.Start, steps: seq<Step>)
    requires Primitives(c) && Founds(c, start) && start.logSeed.Some?
    ensures Run(c, Genesis(c, start), steps).s.log.Some?
    ensures Decided(Run(c, Genesis(c, start), steps).s.log.value.entries) == Written(c, Genesis(c, start), steps)
  {
    hide Founds, Genesis, Sound, Next, Apply, Wrote, Decided;
    if |steps| == 0 {
      GenesisDecided(c, start);
    } else {
      var init, step := steps[..|steps| - 1], steps[|steps| - 1];
      var before := Run(c, Genesis(c, start), init);
      DecisionsAreLogged(c, start, init);
      GenesisSound(c, start);
      RunKeepsSound(c, Genesis(c, start), init);
      SoundHasCore(c, before);
      StepDecides(c, before.s, step);
      NextFields(c, before, step);
    }
  }
}
