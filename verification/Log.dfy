/** The transparency log: a signed hash chain, and the three checks an auditor makes of it. */
module Log {
  import opened Wrappers
  import opened Bytes
  import opened Crypto
  import opened Framing

  datatype LogEntry =
    | ClassRoot(epoch: nat, class_: Bytes32, root: Bytes32)
    | ExclusionRoots(epoch: nat, revocation: Bytes32, spend: Bytes32)
    | PolicyChanged(epoch: nat, class_: Bytes32, version: nat)
    | Frozen(epoch: nat)
  {
    function Parts(): seq<seq<byte>> {
      match this
      case ClassRoot(epoch, class_, root) => [[0], U64Bytes(epoch), class_, root]
      case ExclusionRoots(epoch, revocation, spend) => [[1], U64Bytes(epoch), revocation, spend]
      case PolicyChanged(epoch, class_, version) => [[2], U64Bytes(epoch), class_, U64Bytes(version)]
      case Frozen(epoch) => [[3], U64Bytes(epoch)]
    }

    /** The width the source's integers have. */
    predicate Fits() {
      epoch < U64 && (PolicyChanged? ==> version < U64)
    }
  }

  datatype SignedHead = SignedHead(sequence: nat, head: Bytes32, signature: seq<byte>)

  datatype LogState = LogState(seed: Bytes32, entries: seq<LogEntry>, heads: seq<SignedHead>)

  function StepParts(prev: Bytes32, entry: LogEntry): seq<seq<byte>> {
    [prev] + entry.Parts()
  }

  /** The head after one more entry. */
  function ChainStep(c: Scheme, prev: Bytes32, entry: LogEntry): Bytes32 {
    Digest(c, TransparencyEntry, StepParts(prev, entry))
  }

  /** The chained digest over these entries, oldest first. */
  function ChainOf(c: Scheme, entries: seq<LogEntry>): Bytes32 {
    if |entries| == 0 then ZERO32
    else ChainStep(c, ChainOf(c, entries[..|entries| - 1]), entries[|entries| - 1])
  }

  lemma ChainExtends(c: Scheme, entries: seq<LogEntry>, entry: LogEntry)
    ensures ChainOf(c, entries + [entry]) == ChainStep(c, ChainOf(c, entries), entry)
  {
    assert (entries + [entry])[..|entries|] == entries;
  }

  function HeadMessage(c: Scheme, sequence: nat, head: Bytes32): F {
    FromId(Digest(c, TransparencyHead, [U64Bytes(sequence), head]))
  }

  predicate HeadVerifies(c: Scheme, head: SignedHead, pk: seq<byte>) {
    VerifySignature(c, pk, HeadMessage(c, head.sequence, head.head), head.signature)
  }

  function Appended(c: Scheme, log: LogState, entry: LogEntry): LogState {
    var prev := if |log.heads| == 0 then ZERO32 else log.heads[|log.heads| - 1].head;
    var head := ChainStep(c, prev, entry);
    var sequence := |log.entries|;
    LogState(log.seed, log.entries + [entry],
             log.heads + [SignedHead(sequence, head, c.sign(log.seed, HeadMessage(c, sequence, head)))])
  }

  // ---- The auditor's checks ----

  /** Every presented head is a validly signed commitment to exactly its prefix. */
  predicate VerifyLog(c: Scheme, entries: seq<LogEntry>, heads: seq<SignedHead>, pk: seq<byte>) {
    forall i :: 0 <= i < |heads| ==> HeadCommits(c, entries, heads[i], pk)
  }

  predicate HeadCommits(c: Scheme, entries: seq<LogEntry>, head: SignedHead, pk: seq<byte>) {
    && head.sequence < |entries|
    && head.head == ChainOf(c, entries[..head.sequence + 1])
    && HeadVerifies(c, head, pk)
  }

  /** Two validly signed heads for one sequence with different digests. */
  predicate Equivocation(c: Scheme, a: SignedHead, b: SignedHead, pk: seq<byte>) {
    a.sequence == b.sequence && a.head != b.head && HeadVerifies(c, a, pk) && HeadVerifies(c, b, pk)
  }

  /** Epochs in order, and a freeze only at the end. */
  predicate Conforms(entries: seq<LogEntry>) {
    forall i, j :: 0 <= i < j < |entries| ==> entries[i].epoch <= entries[j].epoch && !entries[i].Frozen?
  }

  /** Every prefix's chained digest, in one pass. */
  method Recompute(c: Scheme, entries: seq<LogEntry>) returns (recomputed: seq<Bytes32>)
    ensures |recomputed| == |entries|
    ensures forall k :: 0 <= k < |entries| ==> recomputed[k] == ChainOf(c, entries[..k + 1])
  {
    var chain := ZERO32;
    recomputed := [];
    for i := 0 to |entries|
      invariant chain == ChainOf(c, entries[..i]) && |recomputed| == i
      invariant forall k :: 0 <= k < i ==> recomputed[k] == ChainOf(c, entries[..k + 1])
    {
      ChainExtends(c, entries[..i], entries[i]);
      assert entries[..i + 1] == entries[..i] + [entries[i]];
      chain := ChainStep(c, chain, entries[i]);
      recomputed := recomputed + [chain];
    }
  }

  /** The check as it runs: recompute the chain once, then look every head up. */
  method CheckLog(c: Scheme, entries: seq<LogEntry>, heads: seq<SignedHead>, pk: seq<byte>) returns (ok: bool)
    ensures ok == VerifyLog(c, entries, heads, pk)
  {
    var recomputed := Recompute(c, entries);
    for i := 0 to |heads|
      invariant forall k :: 0 <= k < i ==> HeadCommits(c, entries, heads[k], pk)
    {
      var head := heads[i];
      if head.sequence >= |recomputed| || recomputed[head.sequence] != head.head || !HeadVerifies(c, head, pk) {
        assert !HeadCommits(c, entries, heads[i], pk);
        return false;
      }
    }
    return true;
  }

  /** The conformance check as it runs, with its two running variables. */
  method CheckConforms(entries: seq<LogEntry>) returns (ok: bool)
    ensures ok == Conforms(entries)
  {
    var last: Option<nat> := None;
    var frozen := false;
    for i := 0 to |entries|
      invariant Conforms(entries[..i])
      invariant last == if i == 0 then None else Some(entries[i - 1].epoch)
      invariant frozen == (i > 0 && entries[i - 1].Frozen?)
    {
      if frozen {
        return false;
      }
      if last.Some? && entries[i].epoch < last.value {
        return false;
      }
      assert entries[..i + 1] == entries[..i] + [entries[i]];
      last := Some(entries[i].epoch);
      frozen := entries[i].Frozen?;
    }
    assert entries[..|entries|] == entries;
    return true;
  }

  class TransparencyLog {
    const seed: Bytes32
    var entries: seq<LogEntry>
    var heads: seq<SignedHead>

    function View(): LogState
      reads this
    {
      LogState(seed, entries, heads)
    }

    constructor (entropy: Bytes32)
      ensures forall c: Scheme :: Kept(c, View())
      ensures View() == LogState(MintSigningSecret(entropy), [], [])
    {
      seed := MintSigningSecret(entropy);
      entries := [];
      heads := [];
    }

    /** One more entry and its signed head: no earlier entry or head
        moves, and a kept log stays kept, so the new head is the signed digest of them all. */
    method Append(c: Scheme, entry: LogEntry)
      modifies this
      ensures entries == old(entries) + [entry]
      ensures |heads| == old(|heads|) + 1 && heads[..old(|heads|)] == old(heads)
      ensures old(Kept(c, View())) ==> Kept(c, View())
      ensures View() == Appended(c, old(View()), entry)
    {
      var prev := if |heads| == 0 then ZERO32 else heads[|heads| - 1].head;
      var head := ChainStep(c, prev, entry);
      var sequence := |entries|;
      var signature := c.sign(seed, HeadMessage(c, sequence, head));
      if Kept(c, View()) {
        AppendKeeps(c, View(), entry);
      }
      entries := entries + [entry];
      heads := heads + [SignedHead(sequence, head, signature)];
    }
  }

  /** An entry may follow the one before it. */
  predicate Follows(entries: seq<LogEntry>, i: nat)
    requires 0 < i < |entries|
  {
    entries[i - 1].epoch <= entries[i].epoch && !entries[i - 1].Frozen?
  }

  /** Conformance read neighbour by neighbour: no entry is dated before the one it follows, and none
      follows a freeze. */
  lemma {:induction false} ConformsByNeighbours(entries: seq<LogEntry>)
    ensures Conforms(entries) <==> forall i :: 0 < i < |entries| ==> Follows(entries, i)
  {
    if |entries| > 1 {
      var init := entries[..|entries| - 1];
      ConformsByNeighbours(init);
      assert forall i :: 0 < i < |init| ==> Follows(init, i) == Follows(entries, i);
      if Conforms(entries) {
        assert Conforms(init);
        assert Follows(entries, |entries| - 1);
      }
      if forall i :: 0 < i < |entries| ==> Follows(entries, i) {
        assert Conforms(init) && Follows(entries, |entries| - 1);
        assert entries == init + [entries[|entries| - 1]];
        AppendConforms(init, entries[|entries| - 1]);
      }
    }
  }

  // ---- What the operator's own log always satisfies ----

  /** The head an honest operator signs for its first `count` entries. */
  function HeadOf(c: Scheme, log: LogState, count: nat): SignedHead
    requires 0 < count <= |log.entries|
  {
    var head := ChainOf(c, log.entries[..count]);
    SignedHead(count - 1, head, c.sign(log.seed, HeadMessage(c, count - 1, head)))
  }

  /** A head per entry, each the signed digest of its prefix. */
  ghost predicate Kept(c: Scheme, log: LogState) {
    && |log.heads| == |log.entries|
    && forall i :: 0 <= i < |log.heads| ==> log.heads[i] == HeadOf(c, log, i + 1)
  }

  lemma AppendKeeps(c: Scheme, log: LogState, entry: LogEntry)
    requires Kept(c, log)
    ensures Kept(c, Appended(c, log, entry))
  {
    var more := Appended(c, log, entry);
    ChainExtends(c, log.entries, entry);
    assert log.entries[..|log.entries|] == log.entries && more.entries[..|more.entries|] == more.entries;
    forall i | 0 <= i < |log.heads|
      ensures more.heads[i] == HeadOf(c, more, i + 1)
    {
      assert more.entries[..i + 1] == log.entries[..i + 1];
    }
  }

  /** A kept log verifies under its own public key. */
  lemma KeptVerifies(c: Scheme, log: LogState)
    requires SignLaw(c) && Kept(c, log) && PublicKey(c, log.seed).Some?
    ensures VerifyLog(c, log.entries, log.heads, PublicKey(c, log.seed).value)
  {
    forall i | 0 <= i < |log.heads|
      ensures HeadCommits(c, log.entries, log.heads[i], PublicKey(c, log.seed).value)
    {
      assert log.heads[i] == HeadOf(c, log, i + 1);
    }
  }

  /** Extending a conforming, unfrozen log at or after its last epoch conforms. */
  lemma AppendConforms(entries: seq<LogEntry>, entry: LogEntry)
    requires Conforms(entries)
    requires |entries| > 0 ==> entries[|entries| - 1].epoch <= entry.epoch && !entries[|entries| - 1].Frozen?
    ensures Conforms(entries + [entry])
  {
  }

  // ---- What the checks catch ----

  /** One step as it was hashed: its entry has the source's integer widths and its parts are
      among the queries. */
  ghost predicate StepHashed(prev: Bytes32, entry: LogEntry, q: set<Query>) {
    entry.Fits() && Query(TransparencyEntry, StepParts(prev, entry)) in q
  }

  /** Every step taken to recompute a chain was hashed in `q`. */
  ghost predicate ChainHashed(c: Scheme, entries: seq<LogEntry>, q: set<Query>) {
    |entries| > 0 ==>
      && StepHashed(ChainOf(c, entries[..|entries| - 1]), entries[|entries| - 1], q)
      && ChainHashed(c, entries[..|entries| - 1], q)
  }

  lemma EntryEncodingInjective(a: LogEntry, b: LogEntry)
    requires a.Fits() && b.Fits() && a.Parts() == b.Parts()
    ensures a == b
  {
    U64RoundTrip(a.epoch);
    U64RoundTrip(b.epoch);
    var p, q := a.Parts(), b.Parts();
    assert p[0] == q[0] && p[0][0] == q[0][0] && p[1] == q[1];
    if !a.Frozen? {
      assert p[2] == q[2] && p[3] == q[3];
    }
    if a.PolicyChanged? {
      U64RoundTrip(a.version);
      U64RoundTrip(b.version);
    }
  }

  /** One chain step's bytes determine the previous head and the entry. */
  lemma StepPreimageInjective(prev: Bytes32, a: LogEntry, prev': Bytes32, b: LogEntry)
    requires a.Fits() && b.Fits()
    requires Preimage(TransparencyEntry, StepParts(prev, a)) == Preimage(TransparencyEntry, StepParts(prev', b))
    ensures prev == prev' && a == b
  {
    PreimageInjective(TransparencyEntry, StepParts(prev, a), TransparencyEntry, StepParts(prev', b));
    StepPartsInjective(prev, a, prev', b);
  }

  lemma StepPartsInjective(prev: Bytes32, a: LogEntry, prev': Bytes32, b: LogEntry)
    requires a.Fits() && b.Fits() && StepParts(prev, a) == StepParts(prev', b)
    ensures prev == prev' && a == b
  {
    var x, y := StepParts(prev, a), StepParts(prev', b);
    assert x[0] == y[0] && x[1..] == a.Parts() && y[1..] == b.Parts();
    EntryEncodingInjective(a, b);
  }

  /** Among hashed steps, equal digests come from equal steps. */
  ghost predicate StepInjective(c: Scheme, q: set<Query>) {
    forall prev, a, prev', b {:trigger StepHashed(prev, a, q), StepHashed(prev', b, q)} ::
      StepHashed(prev, a, q) && StepHashed(prev', b, q) && ChainStep(c, prev, a) == ChainStep(c, prev', b)
      ==> prev == prev' && a == b
  }

  lemma StepsAgree(c: Scheme, q: set<Query>)
    requires ByteCollisionFree(c, q)
    ensures StepInjective(c, q)
  {
    forall prev, a, prev', b |
      StepHashed(prev, a, q) && StepHashed(prev', b, q) && ChainStep(c, prev, a) == ChainStep(c, prev', b)
      ensures prev == prev' && a == b
    {
      DistinctParts(c, q, TransparencyEntry, StepParts(prev, a), TransparencyEntry, StepParts(prev', b));
      StepPartsInjective(prev, a, prev', b);
    }
  }

  /** Equal chained digests at one length mean equal entries: the log is append-only. */
  lemma {:induction false} SharedChainAgrees(c: Scheme, a: seq<LogEntry>, b: seq<LogEntry>, q: set<Query>)
    requires |a| == |b| && ChainOf(c, a) == ChainOf(c, b)
    requires ChainHashed(c, a, q) && ChainHashed(c, b, q) && StepInjective(c, q)
    ensures a == b
  {
    if |a| > 0 {
      SharedChainAgrees(c, a[..|a| - 1], b[..|a| - 1], q);
      assert a == a[..|a| - 1] + [a[|a| - 1]] && b == b[..|a| - 1] + [b[|a| - 1]];
    }
  }

  /** Two entry lists that verify against one shared head agree up to and including it. */
  lemma SharedHeadAgrees(c: Scheme, a: seq<LogEntry>, b: seq<LogEntry>, head: SignedHead, pk: seq<byte>, q: set<Query>)
    requires VerifyLog(c, a, [head], pk) && VerifyLog(c, b, [head], pk) && ByteCollisionFree(c, q)
    requires head.sequence < |a| && ChainHashed(c, a[..head.sequence + 1], q)
    requires head.sequence < |b| && ChainHashed(c, b[..head.sequence + 1], q)
    ensures a[..head.sequence + 1] == b[..head.sequence + 1]
  {
    assert HeadCommits(c, a, [head][0], pk) && HeadCommits(c, b, [head][0], pk);
    StepsAgree(c, q);
    SharedChainAgrees(c, a[..head.sequence + 1], b[..head.sequence + 1], q);
  }

  /** A view with a head for every entry. */
  ghost predicate FullyHeaded(entries: seq<LogEntry>, heads: seq<SignedHead>) {
    |heads| == |entries| && forall i :: 0 <= i < |heads| ==> heads[i].sequence == i
  }

  /** Two fully headed verified views that differ anywhere both cover yield, at that very
      position, a pair that proves the fork. */
  lemma DivergenceIsEquivocation(
    c: Scheme, a: seq<LogEntry>, heads: seq<SignedHead>, b: seq<LogEntry>, heads': seq<SignedHead>,
    pk: seq<byte>, i: nat, q: set<Query>)
    requires FullyHeaded(a, heads) && FullyHeaded(b, heads')
    requires VerifyLog(c, a, heads, pk) && VerifyLog(c, b, heads', pk)
    requires i < |a| && i < |b| && a[i] != b[i]
    requires ChainHashed(c, a[..i + 1], q) && ChainHashed(c, b[..i + 1], q) && ByteCollisionFree(c, q)
    ensures Equivocation(c, heads[i], heads'[i], pk)
  {
    assert HeadCommits(c, a, heads[i], pk) && HeadCommits(c, b, heads'[i], pk);
    assert a[..i + 1][i] != b[..i + 1][i];
    StepsAgree(c, q);
    var x, y := a[..i + 1], b[..i + 1];
    if ChainOf(c, x) == ChainOf(c, y) {
      SharedChainAgrees(c, x, y, q);
    }
  }

  /** An honest log never incriminates itself. */
  lemma NoSelfEquivocation(c: Scheme, entries: seq<LogEntry>, heads: seq<SignedHead>, pk: seq<byte>, i: nat, j: nat)
    requires VerifyLog(c, entries, heads, pk) && i < |heads| && j < |heads|
    ensures !Equivocation(c, heads[i], heads[j], pk)
  {
    assert HeadCommits(c, entries, heads[i], pk) && HeadCommits(c, entries, heads[j], pk);
  }
}
