/** One round of live authentication: commit, lock the roster, reveal, and derive one shared
    context. */
module LiveAuthentication {
  import opened Wrappers
  import opened Bytes
  import opened Crypto
  import opened Framing
  import opened Operator

  // ---- Derivations ----

  function Commitment(c: Scheme, nonce: Bytes32, blinding: Bytes32): Bytes32 {
    Digest(c, LiveAuthCommitment, [nonce, blinding])
  }

  /** Ascending byte-lexicographic order, as the order of big-endian integers. */
  predicate Before(a: Bytes32, b: Bytes32) {
    Rank(a) <= Rank(b)
  }

  predicate InNonceOrder(s: seq<Bytes32>) {
    forall i, j :: 0 <= i < j < |s| ==> Before(s[i], s[j])
  }

  /** A nonce inserted after every one not greater. */
  function Inserted(s: seq<Bytes32>, x: Bytes32): seq<Bytes32> {
    if |s| == 0 || Before(s[|s| - 1], x) then s + [x] else Inserted(s[..|s| - 1], x) + [s[|s| - 1]]
  }

  function Ordered(s: seq<Bytes32>): seq<Bytes32> {
    if |s| == 0 then [] else Inserted(Ordered(s[..|s| - 1]), s[|s| - 1])
  }

  /** The jointly-derived context over the nonces in order. */
  function ContextOver(c: Scheme, nonces: seq<Bytes32>, metadata: seq<byte>): Bytes32 {
    Digest(c, LiveAuthContext, [U64Bytes(|nonces|)] + Ordered(nonces) + [metadata])
  }

  /** The short authentication string the participants compare by voice. */
  function Sas(c: Scheme, context: Bytes32): seq<byte> {
    Digest(c, LiveAuthSas, [context])[..4]
  }

  lemma {:induction false} InsertedKeeps(s: seq<Bytes32>, x: Bytes32)
    requires InNonceOrder(s)
    ensures InNonceOrder(Inserted(s, x))
    ensures multiset(Inserted(s, x)) == multiset(s) + multiset{x}
  {
    hide Rank;
    if |s| > 0 && !Before(s[|s| - 1], x) {
      var init, last := s[..|s| - 1], s[|s| - 1];
      InsertedKeeps(init, x);
      assert s == init + [last];
      forall y | y in Inserted(init, x) ensures Before(y, last) {
        assert y in multiset(init) + multiset{x};
      }
      OrderGrows(Inserted(init, x), last);
    } else {
      OrderGrows(s, x);
    }
  }

  /** An ordered sequence grows by what nothing in it exceeds. */
  lemma OrderGrows(s: seq<Bytes32>, x: Bytes32)
    requires InNonceOrder(s) && (|s| > 0 ==> Before(s[|s| - 1], x))
    ensures InNonceOrder(s + [x]) && multiset(s + [x]) == multiset(s) + multiset{x}
  {
    hide Rank;
  }

  lemma {:induction false} OrderedKeeps(s: seq<Bytes32>)
    ensures InNonceOrder(Ordered(s)) && multiset(Ordered(s)) == multiset(s)
  {
    if |s| > 0 {
      OrderedKeeps(s[..|s| - 1]);
      InsertedKeeps(Ordered(s[..|s| - 1]), s[|s| - 1]);
      assert s == s[..|s| - 1] + [s[|s| - 1]];
    }
  }

  lemma RankInjective(a: Bytes32, b: Bytes32)
    requires Rank(a) == Rank(b)
    ensures a == b
  {
    LEInjective(Reversed(a), Reversed(b));
    forall i | 0 <= i < 32 ensures a[i] == b[i] {
      assert Reversed(a)[31 - i] == a[i] && Reversed(b)[31 - i] == b[i];
    }
  }

  lemma InitMembers(s: seq<Bytes32>)
    requires |s| > 0
    ensures multiset(s[..|s| - 1]) == multiset(s) - multiset{s[|s| - 1]}
    ensures s == s[..|s| - 1] + [s[|s| - 1]]
  {
    assert s == s[..|s| - 1] + [s[|s| - 1]];
  }

  lemma SameLast(a: seq<Bytes32>, b: seq<Bytes32>)
    requires InNonceOrder(a) && InNonceOrder(b) && multiset(a) == multiset(b) && |a| > 0 && |b| > 0
    ensures a[|a| - 1] == b[|b| - 1]
  {
    hide Rank;
    var x, y := a[|a| - 1], b[|b| - 1];
    assert x in multiset(b) && y in multiset(a);
    var i :| 0 <= i < |b| && b[i] == x;
    var j :| 0 <= j < |a| && a[j] == y;
    assert Before(x, y) && Before(y, x);
    RankInjective(x, y);
  }

  /** Ordered sequences with the same members are the same sequence. */
  lemma {:induction false} OrderUnique(a: seq<Bytes32>, b: seq<Bytes32>)
    requires InNonceOrder(a) && InNonceOrder(b) && multiset(a) == multiset(b)
    ensures a == b
  {
    hide Before;
    assert |a| == |multiset(a)| == |multiset(b)| == |b|;
    if |a| > 0 {
      SameLast(a, b);
      InitMembers(a);
      InitMembers(b);
      OrderUnique(a[..|a| - 1], b[..|b| - 1]);
    }
  }

  /** The context does not depend on arrival order. */
  lemma ContextIgnoresOrder(c: Scheme, a: seq<Bytes32>, b: seq<Bytes32>, metadata: seq<byte>)
    requires multiset(a) == multiset(b)
    ensures ContextOver(c, a, metadata) == ContextOver(c, b, metadata)
  {
    OrderedKeeps(a);
    OrderedKeeps(b);
    OrderUnique(Ordered(a), Ordered(b));
    assert |a| == |multiset(a)| == |multiset(b)| == |b|;
  }

  /** What a context hashes: the count, the nonces in ascending order, whatever order they came in,
      and the channel's metadata last. */
  function ContextParts(count: nat, ascending: seq<Bytes32>, metadata: seq<byte>): seq<seq<byte>> {
    [U64Bytes(count)] + ascending + [metadata]
  }

  lemma ContextIs(c: Scheme, nonces: seq<Bytes32>, ascending: seq<Bytes32>, metadata: seq<byte>)
    requires InNonceOrder(ascending) && multiset(ascending) == multiset(nonces)
    ensures ContextOver(c, nonces, metadata) == Digest(c, LiveAuthContext, ContextParts(|nonces|, ascending, metadata))
  {
    hide Before;
    OrderedKeeps(nonces);
    OrderUnique(Ordered(nonces), ascending);
  }

  lemma PartsName(n: nat, a: seq<Bytes32>, metadata: seq<byte>, n': nat, b: seq<Bytes32>, metadata': seq<byte>)
    requires ContextParts(n, a, metadata) == ContextParts(n', b, metadata')
    ensures a == b && metadata == metadata'
  {
    hide ToLE;
    var x, y := ContextParts(n, a, metadata), ContextParts(n', b, metadata');
    assert |x| == |a| + 2 && |y| == |b| + 2;
    assert x[|x| - 1] == metadata && y[|y| - 1] == metadata';
    forall i | 0 <= i < |a| ensures a[i] == b[i] {
      assert x[i + 1] == a[i] && y[i + 1] == b[i];
    }
  }

  /** A context is of one round: equal contexts are over the same nonces, however many times each,
      and the same channel metadata, up to a listed collision. */
  lemma ContextNames(c: Scheme, a: seq<Bytes32>, metadata: seq<byte>, b: seq<Bytes32>, metadata': seq<byte>,
                     x: seq<Bytes32>, y: seq<Bytes32>, q: set<Query>)
    requires InNonceOrder(x) && multiset(x) == multiset(a) && InNonceOrder(y) && multiset(y) == multiset(b)
    requires Query(LiveAuthContext, ContextParts(|a|, x, metadata)) in q && Query(LiveAuthContext, ContextParts(|b|, y, metadata')) in q
    requires ByteCollisionFree(c, q)
    ensures ContextOver(c, a, metadata) == ContextOver(c, b, metadata') <==> multiset(a) == multiset(b) && metadata == metadata'
    ensures ContextOver(c, a, metadata) == ContextOver(c, b, metadata') ==> |a| == |b|
  {
    hide Before, ByteCollisionFree, ContextOver, ContextParts;
    ContextIs(c, a, x, metadata);
    ContextIs(c, b, y, metadata');
    if ContextOver(c, a, metadata) == ContextOver(c, b, metadata') {
      DistinctParts(c, q, LiveAuthContext, ContextParts(|a|, x, metadata), LiveAuthContext, ContextParts(|b|, y, metadata'));
      PartsName(|a|, x, metadata, |b|, y, metadata');
      assert |a| == |multiset(a)| == |multiset(b)| == |b|;
    }
    if multiset(a) == multiset(b) && metadata == metadata' {
      ContextIgnoresOrder(c, a, b, metadata);
    }
  }

  /** Two contexts read out alike, by the four bytes compared. */
  predicate SpokenAlike(c: Scheme, a: Bytes32, b: Bytes32) {
    a != b && Digest(c, LiveAuthSas, [a])[..4] == Digest(c, LiveAuthSas, [b])[..4]
  }

  /** Moves one element down to its place among those before it. */
  method Sink(a: array<Bytes32>, i: nat)
    requires i < a.Length
    modifies a
    ensures a[..i + 1] == Inserted(old(a[..i]), old(a[i]))
    ensures a[i + 1..] == old(a[i + 1..])
  {
    hide Before;
    ghost var sorted, x := a[..i], a[i];
    var j := i;
    while j > 0 && !Before(a[j - 1], a[j])
      invariant j <= i
      invariant a[..j] == sorted[..j] && a[j] == x && a[j + 1..i + 1] == sorted[j..]
      invariant a[i + 1..] == old(a[i + 1..])
      invariant Inserted(sorted, x) == Inserted(sorted[..j], x) + sorted[j..]
    {
      assert a[j - 1] == sorted[..j][j - 1];
      InsertStep(sorted, j, x);
      a[j - 1], a[j] := a[j], a[j - 1];
      j := j - 1;
    }
    assert a[..i + 1] == a[..j] + [a[j]] + a[j + 1..i + 1];
    InsertHere(sorted[..j], x);
  }

  lemma InsertStep(sorted: seq<Bytes32>, j: nat, x: Bytes32)
    requires 0 < j <= |sorted| && !Before(sorted[j - 1], x)
    ensures Inserted(sorted[..j], x) + sorted[j..] == Inserted(sorted[..j - 1], x) + sorted[j - 1..]
  {
    hide Before;
    assert sorted[..j][..j - 1] == sorted[..j - 1];
    assert sorted[j - 1..] == [sorted[j - 1]] + sorted[j..];
  }

  lemma InsertHere(s: seq<Bytes32>, x: Bytes32)
    ensures |s| == 0 || Before(s[|s| - 1], x) ==> Inserted(s, x) == s + [x]
  {
  }

  /** Sorts the first nonces of a buffer in place. */
  method SortNonces(a: array<Bytes32>, count: nat)
    requires count <= a.Length
    modifies a
    ensures a[..count] == Ordered(old(a[..count]))
    ensures a[count..] == old(a[count..])
  {
    hide Inserted;
    ghost var original := a[..];
    for i := 0 to count
      invariant a[..i] == Ordered(original[..i])
      invariant a[i..] == original[i..]
    {
      OrderedLength(original[..i]);
      Sink(a, i);
      assert original[..i + 1][..i] == original[..i];
    }
    assert original[..count] == old(a[..count]);
  }

  lemma {:induction false} OrderedLength(s: seq<Bytes32>)
    ensures |Ordered(s)| == |s|
  {
    OrderedKeeps(s);
    assert |multiset(Ordered(s))| == |multiset(s)|;
  }

  // ---- The round ----

  datatype Contribution = Contribution(nonce: Bytes32, blinding: Bytes32)

  datatype Locked = Locked(contribution: Contribution, roster: seq<Bytes32>, position: nat)

  predicate Duplicated(roster: seq<Bytes32>) {
    exists i, j :: 0 <= i < j < |roster| && roster[i] == roster[j]
  }

  function IndexOf(roster: seq<Bytes32>, x: Bytes32): Option<nat> {
    if |roster| == 0 then None
    else if roster[0] == x then Some(0)
    else match IndexOf(roster[1..], x) case None => None case Some(i) => Some(i + 1)
  }

  /** Fixes the roster, or refuses one that is not a session. */
  function Lock(c: Scheme, mine: Contribution, roster: seq<Bytes32>): Result<Locked> {
    if |roster| < 2 || Duplicated(roster) then Err(Rejected)
    else match IndexOf(roster, Commitment(c, mine.nonce, mine.blinding))
      case None => Err(Rejected)
      case Some(position) => Ok(Locked(mine, roster, position))
  }

  predicate Opens(c: Scheme, l: Locked, openings: seq<Contribution>, i: nat)
    requires |openings| == |l.roster| && i < |openings|
  {
    && Commitment(c, openings[i].nonce, openings[i].blinding) == l.roster[i]
    && (i == l.position ==> openings[i].nonce == l.contribution.nonce)
  }

  function Nonces(openings: seq<Contribution>): (nonces: seq<Bytes32>)
    ensures |nonces| == |openings|
  {
    seq(|openings|, i requires 0 <= i < |openings| => openings[i].nonce)
  }

  /** Checks every reveal against the roster and derives the shared context. */
  function Finish(c: Scheme, l: Locked, openings: seq<Contribution>, room: nat, metadata: seq<byte>): Result<Bytes32> {
    if |openings| != |l.roster| then Err(Rejected)
    else if |openings| > room then Err(Malformed)
    else if exists i :: 0 <= i < |openings| && !Opens(c, l, openings, i) then Err(Rejected)
    else Ok(ContextOver(c, Nonces(openings), metadata))
  }

  lemma {:induction false} IndexOfFinds(roster: seq<Bytes32>, x: Bytes32)
    ensures match IndexOf(roster, x)
            case None => x !in roster
            case Some(i) => i < |roster| && roster[i] == x && forall j :: 0 <= j < i ==> roster[j] != x
  {
    if |roster| > 0 && roster[0] != x {
      IndexOfFinds(roster[1..], x);
      assert roster == [roster[0]] + roster[1..];
    }
  }

  /** A roster locks exactly when it is a session: at least two commitments, no two alike, one's own
      among them, whose only position is recorded. */
  lemma LockExactly(c: Scheme, mine: Contribution, roster: seq<Bytes32>)
    ensures Lock(c, mine, roster).Ok? <==>
              && |roster| >= 2
              && (forall i, j :: 0 <= i < j < |roster| ==> roster[i] != roster[j])
              && Commitment(c, mine.nonce, mine.blinding) in roster
    ensures Lock(c, mine, roster).Ok? ==>
              var l := Lock(c, mine, roster).value;
              l.contribution == mine && l.roster == roster
              && (forall i :: 0 <= i < |roster| ==> (roster[i] == Commitment(c, mine.nonce, mine.blinding) <==> i == l.position))
    ensures Lock(c, mine, roster).Err? ==> Lock(c, mine, roster) == Err(Rejected)
  {
    hide Commitment;
    IndexOfFinds(roster, Commitment(c, mine.nonce, mine.blinding));
  }

  /** The lock as it runs: each commitment against those before it, then one's own position. */
  method LockRoster(c: Scheme, mine: Contribution, roster: seq<Bytes32>) returns (r: Result<Locked>)
    ensures r == Lock(c, mine, roster)
  {
    if |roster| < 2 {
      return Err(Rejected);
    }
    for i := 0 to |roster|
      invariant forall a, b :: 0 <= a < b < i ==> roster[a] != roster[b]
    {
      if roster[i] in roster[..i] {
        var a :| 0 <= a < i && roster[..i][a] == roster[i];
        assert Duplicated(roster);
        return Err(Rejected);
      }
      assert forall a :: 0 <= a < i ==> roster[..i][a] == roster[a];
    }
    assert !Duplicated(roster);
    var own := Commitment(c, mine.nonce, mine.blinding);
    IndexOfFinds(roster, own);
    var position := 0;
    while position < |roster| && roster[position] != own
      invariant position <= |roster| && forall j :: 0 <= j < position ==> roster[j] != own
    {
      position := position + 1;
    }
    if position == |roster| {
      return Err(Rejected);
    }
    return Ok(Locked(mine, roster, position));
  }

  /** The finish as it runs: openings checked one by one into the caller's scratch, which is then
      sorted in place. */
  method FinishRound(c: Scheme, l: Locked, openings: seq<Contribution>, scratch: array<Bytes32>, metadata: seq<byte>)
    returns (r: Result<Bytes32>)
    modifies scratch
    ensures r == Finish(c, l, openings, scratch.Length, metadata)
  {
    if |openings| != |l.roster| {
      return Err(Rejected);
    }
    if |openings| > scratch.Length {
      return Err(Malformed);
    }
    for i := 0 to |openings|
      invariant forall j :: 0 <= j < i ==> Opens(c, l, openings, j) && scratch[j] == openings[j].nonce
    {
      if Commitment(c, openings[i].nonce, openings[i].blinding) != l.roster[i] {
        assert !Opens(c, l, openings, i);
        return Err(Rejected);
      }
      if i == l.position && openings[i].nonce != l.contribution.nonce {
        assert !Opens(c, l, openings, i);
        return Err(Rejected);
      }
      scratch[i] := openings[i].nonce;
    }
    assert scratch[..|openings|] == Nonces(openings);
    SortNonces(scratch, |openings|);
    OrderedLength(Nonces(openings));
    return Ok(Digest(c, LiveAuthContext, [U64Bytes(|openings|)] + scratch[..|openings|] + [metadata]));
  }

  // ---- Agreement ----

  /** Every opening either participant saw was hashed in `q`. */
  ghost predicate RevealsHashed(openings: seq<Contribution>, q: set<Query>) {
    forall i :: 0 <= i < |openings| ==> Query(LiveAuthCommitment, [openings[i].nonce, openings[i].blinding]) in q
  }

  /** These openings open these commitments, in order. */
  ghost predicate AllOpen(c: Scheme, roster: seq<Bytes32>, openings: seq<Contribution>) {
    |openings| == |roster|
    && forall i :: 0 <= i < |openings| ==> Commitment(c, openings[i].nonce, openings[i].blinding) == roster[i]
  }

  lemma SameCommitmentSameNonce(c: Scheme, a: Contribution, b: Contribution, q: set<Query>)
    requires ByteCollisionFree(c, q)
    requires Query(LiveAuthCommitment, [a.nonce, a.blinding]) in q && Query(LiveAuthCommitment, [b.nonce, b.blinding]) in q
    requires Commitment(c, a.nonce, a.blinding) == Commitment(c, b.nonce, b.blinding)
    ensures a.nonce == b.nonce
  {
    DistinctParts(c, q, LiveAuthCommitment, [a.nonce, a.blinding], LiveAuthCommitment, [b.nonce, b.blinding]);
    assert [a.nonce, a.blinding][0] == [b.nonce, b.blinding][0];
  }

  function Without<T>(s: seq<T>, i: nat): seq<T>
    requires i < |s|
  {
    s[..i] + s[i + 1..]
  }

  lemma WithoutMembers<T>(s: seq<T>, i: nat)
    requires i < |s|
    ensures multiset(Without(s, i)) == multiset(s) - multiset{s[i]}
  {
    assert s == s[..i] + ([s[i]] + s[i + 1..]);
  }

  lemma WithoutOpen(c: Scheme, roster: seq<Bytes32>, openings: seq<Contribution>, i: nat, q: set<Query>)
    requires i < |roster| && AllOpen(c, roster, openings) && RevealsHashed(openings, q)
    ensures AllOpen(c, Without(roster, i), Without(openings, i)) && RevealsHashed(Without(openings, i), q)
    ensures Nonces(Without(openings, i)) == Without(Nonces(openings), i)
    ensures multiset(Nonces(openings)) == multiset(Nonces(Without(openings, i))) + multiset{openings[i].nonce}
  {
    hide Commitment;
    WithoutMembers(Nonces(openings), i);
    NonceMember(Nonces(openings), i);
  }

  /** Permuted rosters with every reveal opening yield the same nonces, up to a commitment
      collision. */
  lemma {:induction false} PermutedReveals(c: Scheme, a: seq<Bytes32>, ra: seq<Contribution>, b: seq<Bytes32>, rb: seq<Contribution>,
                                           q: set<Query>)
    requires multiset(a) == multiset(b) && AllOpen(c, a, ra) && AllOpen(c, b, rb)
    requires RevealsHashed(ra, q) && RevealsHashed(rb, q) && ByteCollisionFree(c, q)
    ensures multiset(Nonces(ra)) == multiset(Nonces(rb))
    decreases |a|
  {
    hide Commitment, ByteCollisionFree, Without, Nonces;
    assert |a| == |multiset(a)| == |multiset(b)| == |b|;
    if |a| > 0 {
      assert a[0] in multiset(b);
      var j :| 0 <= j < |b| && b[j] == a[0];
      SameCommitmentSameNonce(c, ra[0], rb[j], q);
      RestPermuted(a, b, j);
      WithoutOpen(c, a, ra, 0, q);
      WithoutOpen(c, b, rb, j, q);
      PermutedReveals(c, Without(a, 0), Without(ra, 0), Without(b, j), Without(rb, j), q);
    } else {
      NoNonces(ra);
      NoNonces(rb);
    }
  }

  lemma NoNonces(openings: seq<Contribution>)
    requires |openings| == 0
    ensures Nonces(openings) == []
  {
  }

  lemma RestPermuted(a: seq<Bytes32>, b: seq<Bytes32>, j: nat)
    requires |a| > 0 && j < |b| && b[j] == a[0] && multiset(a) == multiset(b)
    ensures multiset(Without(a, 0)) == multiset(Without(b, j)) && |Without(a, 0)| == |a| - 1
  {
    WithoutMembers(a, 0);
    WithoutMembers(b, j);
  }

  lemma NonceMember(s: seq<Bytes32>, i: nat)
    requires i < |s|
    ensures multiset(s) == (multiset(s) - multiset{s[i]}) + multiset{s[i]}
  {
    assert s[i] in multiset(s);
  }

  /** Any two participants whose rosters are permutations of each other, and who finish with the
      same channel metadata, derive the same context and the same authentication string. */
  lemma RoundAgrees(c: Scheme, l: Locked, ra: seq<Contribution>, roomA: nat, m: Locked, rb: seq<Contribution>, roomB: nat,
                    metadata: seq<byte>, q: set<Query>)
    requires multiset(l.roster) == multiset(m.roster)
    requires Finish(c, l, ra, roomA, metadata).Ok? && Finish(c, m, rb, roomB, metadata).Ok?
    requires RevealsHashed(ra, q) && RevealsHashed(rb, q) && ByteCollisionFree(c, q)
    ensures Finish(c, l, ra, roomA, metadata) == Finish(c, m, rb, roomB, metadata)
    ensures Sas(c, Finish(c, l, ra, roomA, metadata).value) == Sas(c, Finish(c, m, rb, roomB, metadata).value)
  {
    FinishOpens(c, l, ra, roomA, metadata);
    FinishOpens(c, m, rb, roomB, metadata);
    PermutedReveals(c, l.roster, ra, m.roster, rb, q);
    ContextIgnoresOrder(c, Nonces(ra), Nonces(rb), metadata);
  }

  lemma FinishOpens(c: Scheme, l: Locked, openings: seq<Contribution>, room: nat, metadata: seq<byte>)
    requires Finish(c, l, openings, room, metadata).Ok?
    ensures AllOpen(c, l.roster, openings)
  {
    forall i | 0 <= i < |openings| ensures Commitment(c, openings[i].nonce, openings[i].blinding) == l.roster[i] {
      assert Opens(c, l, openings, i);
    }
  }

  /** A round finishes exactly when there is a reveal for every commitment, each opening its own, the
      own slot's nonce is the one contributed, and the caller made room; and then over every nonce
      revealed. */
  lemma FinishExactly(c: Scheme, l: Locked, openings: seq<Contribution>, room: nat, metadata: seq<byte>)
    ensures Finish(c, l, openings, room, metadata)
         == if |openings| == |l.roster| && |openings| > room then Err(Malformed)
            else if AllOpen(c, l.roster, openings)
                    && (l.position < |openings| ==> openings[l.position].nonce == l.contribution.nonce)
            then Ok(ContextOver(c, Nonces(openings), metadata))
            else Err(Rejected)
  {
    hide Commitment, ContextOver;
    if |openings| == |l.roster| {
      if i :| 0 <= i < |openings| && !Opens(c, l, openings, i) {
        assert !(AllOpen(c, l.roster, openings) && (l.position < |openings| ==> openings[l.position].nonce == l.contribution.nonce));
      } else {
        forall i | 0 <= i < |openings| ensures Commitment(c, openings[i].nonce, openings[i].blinding) == l.roster[i] {
          assert Opens(c, l, openings, i);
        }
        if l.position < |openings| {
          assert Opens(c, l, openings, l.position);
        }
      }
    }
  }

  /** No round is another: two finished rounds share a context if and only if they revealed the same
      nonces, as many times each, over the same channel metadata; and then, and only then, the strings
      their participants compare agree, up to listed collisions of what is compared. */
  lemma RoundsApart(c: Scheme, l: Locked, ra: seq<Contribution>, roomA: nat, metadata: seq<byte>,
                    m: Locked, rb: seq<Contribution>, roomB: nat, metadata': seq<byte>, x: seq<Bytes32>, y: seq<Bytes32>, q: set<Query>)
    requires Finish(c, l, ra, roomA, metadata).Ok? && Finish(c, m, rb, roomB, metadata').Ok?
    requires InNonceOrder(x) && multiset(x) == multiset(Nonces(ra)) && InNonceOrder(y) && multiset(y) == multiset(Nonces(rb))
    requires Query(LiveAuthContext, ContextParts(|ra|, x, metadata)) in q && Query(LiveAuthContext, ContextParts(|rb|, y, metadata')) in q
    requires ByteCollisionFree(c, q)
    ensures var a, b := Finish(c, l, ra, roomA, metadata).value, Finish(c, m, rb, roomB, metadata').value;
            && (a == b <==> multiset(Nonces(ra)) == multiset(Nonces(rb)) && metadata == metadata')
            && (a == b ==> |ra| == |rb|)
            && (!SpokenAlike(c, a, b) ==> (Sas(c, a) == Sas(c, b) <==> a == b))
  {
    hide Before, ByteCollisionFree, ContextOver, ContextParts, Nonces, AllOpen;
    FinishExactly(c, l, ra, roomA, metadata);
    FinishExactly(c, m, rb, roomB, metadata');
    ContextNames(c, Nonces(ra), metadata, Nonces(rb), metadata', x, y, q);
  }
}
