/** Length framing: the bytes a hasher absorbs, and why no boundary in them can be moved. */
module Framing {
  import opened Bytes
  import opened Crypto

  function Ascii(s: string): (b: seq<byte>)
    ensures |b| == |s|
  {
    seq(|s|, i requires 0 <= i < |s| => (s[i] as int) % 256)
  }

  /** Each part after its own u64 length. */
  function Framed(parts: seq<seq<byte>>): seq<byte> {
    if |parts| == 0 then [] else U64Bytes(|parts[0]|) + parts[0] + Framed(parts[1..])
  }

  /** The bytes hashed for a domain and its parts: the tag framed first, like any other part. */
  function Preimage(d: Domain, parts: seq<seq<byte>>): seq<byte> {
    Framed([Ascii(d.Tag())] + parts)
  }

  /** The hasher over any raw backend: what it digests is exactly the framed preimage. */
  class Hasher {
    const domain: Domain
    ghost var parts: seq<seq<byte>>
    var state: seq<byte>

    ghost predicate Valid()
      reads this
    {
      state == Preimage(domain, parts)
    }

    constructor (domain: Domain)
      ensures Valid() && this.domain == domain && parts == []
    {
      this.domain := domain;
      parts := [];
      var tag := Ascii(domain.Tag());
      state := U64Bytes(|tag|) + tag;
      new;
      assert [tag] + [] == [tag] && Framed([tag]) == U64Bytes(|tag|) + tag + Framed([tag][1..]);
    }

    method Absorb(bytes: seq<byte>)
      requires Valid()
      modifies this
      ensures Valid() && parts == old(parts) + [bytes]
    {
      FramedGrows([Ascii(domain.Tag())] + parts, bytes);
      assert [Ascii(domain.Tag())] + parts + [bytes] == [Ascii(domain.Tag())] + (parts + [bytes]);
      state := state + U64Bytes(|bytes|);
      state := state + bytes;
      parts := parts + [bytes];
    }

    function Finalize(raw: seq<byte> -> Bytes32): (digest: Bytes32)
      reads this
      requires Valid()
      ensures digest == raw(Preimage(domain, parts))
    {
      raw(state)
    }
  }

  lemma {:induction false} FramedGrows(parts: seq<seq<byte>>, more: seq<byte>)
    ensures Framed(parts + [more]) == Framed(parts) + (U64Bytes(|more|) + more)
  {
    if |parts| == 0 {
      assert parts + [more] == [more];
      assert [more][1..] == [];
    } else {
      FramedGrows(parts[1..], more);
      assert (parts + [more])[1..] == parts[1..] + [more];
    }
  }

  // ---- Injectivity ----

  /** Every part's length fits the u64 it is framed by. */
  ghost predicate Framable(parts: seq<seq<byte>>) {
    forall i :: 0 <= i < |parts| ==> |parts[i]| < U64
  }

  lemma FramedHead(parts: seq<seq<byte>>)
    requires |parts| > 0
    ensures |Framed(parts)| >= 8 + |parts[0]|
    ensures Framed(parts)[..8] == U64Bytes(|parts[0]|)
    ensures Framed(parts)[8..8 + |parts[0]|] == parts[0]
    ensures Framed(parts)[8 + |parts[0]|..] == Framed(parts[1..])
  {
  }

  /** The framed encoding is injective over whole lists of parts, counts included. */
  lemma {:induction false} FramedInjective(a: seq<seq<byte>>, b: seq<seq<byte>>)
    requires Framable(a) && Framable(b) && Framed(a) == Framed(b)
    ensures a == b
    decreases |a|
  {
    if |a| > 0 {
      FramedHead(a);
    }
    if |b| > 0 {
      FramedHead(b);
    }
    if |a| > 0 && |b| > 0 {
      U64RoundTrip(|a[0]|);
      U64RoundTrip(|b[0]|);
      FramedInjective(a[1..], b[1..]);
      assert a == [a[0]] + a[1..] && b == [b[0]] + b[1..];
    }
  }

  /** The domain a tag names, told by its length and at most one letter. */
  function Named(s: seq<byte>): Domain {
    if |s| == 15 then Armor
    else if |s| == 17 then TagKey
    else if |s| == 18 then Bulletin
    else if |s| == 19 && s[18] == 103 then InboxTag
    else if |s| == 19 && s[18] == 121 then FetchKey
    else if |s| == 20 then InboxSeal
    else if |s| == 22 then BodyKey
    else if |s| == 23 && s[22] == 115 then LiveAuthSas
    else if |s| == 23 && s[22] == 121 then BulletinBody
    else if |s| == 24 then ActionContext
    else if |s| == 25 && s[24] == 121 then ProposalPolicy
    else if |s| == 25 && s[24] == 108 then InboxEphemeral
    else if |s| == 26 then ProposalHorizon
    else if |s| == 27 && s[26] == 116 then LiveAuthContext
    else if |s| == 27 && s[26] == 100 then TransparencyHead
    else if |s| == 28 && s[27] == 121 then TransparencyEntry
    else if |s| == 28 && s[15] == 99 then StubChain
    else if |s| == 28 && s[15] == 105 then StubInbox
    else if |s| == 29 then ProposalRevocation
    else if |s| == 30 && s[29] == 116 then LiveAuthCommitment
    else if |s| == 30 && s[29] == 115 then EnvelopeCiphertexts
    else if |s| == 30 && s[29] == 110 then ProposalDissolution
    else StubMigration
  }

  lemma EnvelopeTagsNamed(d: Domain)
    requires d.LiveAuthCommitment? || d.LiveAuthContext? || d.LiveAuthSas? || d.Bulletin? || d.EnvelopeCiphertexts?
          || d.BulletinBody? || d.ProposalPolicy? || d.ProposalRevocation?
    ensures Named(Ascii(d.Tag())) == d
  {
  }

  lemma DecisionTagsNamed(d: Domain)
    requires d.ProposalDissolution? || d.ProposalHorizon? || d.TransparencyEntry? || d.TransparencyHead? || d.ActionContext?
          || d.Armor? || d.InboxEphemeral? || d.BodyKey?
    ensures Named(Ascii(d.Tag())) == d
  {
  }

  lemma KeyTagsNamed(d: Domain)
    requires d.InboxSeal? || d.InboxTag? || d.TagKey? || d.FetchKey? || d.StubChain?
          || d.StubMigration? || d.StubInbox?
    ensures Named(Ascii(d.Tag())) == d
  {
  }

  lemma TagNamed(d: Domain)
    ensures Named(Ascii(d.Tag())) == d
  {
    if d.LiveAuthCommitment? || d.LiveAuthContext? || d.LiveAuthSas? || d.Bulletin?
       || d.EnvelopeCiphertexts? || d.BulletinBody? || d.ProposalPolicy? || d.ProposalRevocation? {
      EnvelopeTagsNamed(d);
    } else if d.ProposalDissolution? || d.ProposalHorizon? || d.TransparencyEntry? || d.TransparencyHead?
              || d.ActionContext? || d.Armor? || d.InboxEphemeral? || d.BodyKey? {
      DecisionTagsNamed(d);
    } else {
      KeyTagsNamed(d);
    }
  }

  /** Every domain's tag is its own. */
  lemma TagsDistinct(a: Domain, b: Domain)
    requires Ascii(a.Tag()) == Ascii(b.Tag())
    ensures a == b
  {
    TagNamed(a);
    TagNamed(b);
  }

  lemma TagFits(d: Domain)
    ensures |Ascii(d.Tag())| < 40
  {
  }

  /** One preimage determines its domain and every part: two digests over different inputs are
      digests of different bytes. */
  lemma PreimageInjective(d: Domain, a: seq<seq<byte>>, e: Domain, b: seq<seq<byte>>)
    requires Framable(a) && Framable(b) && Preimage(d, a) == Preimage(e, b)
    ensures d == e && a == b
  {
    var x, y := [Ascii(d.Tag())] + a, [Ascii(e.Tag())] + b;
    TagFits(d);
    TagFits(e);
    FramedInjective(x, y);
    assert x[0] == y[0] && x[1..] == a && y[1..] == b;
    TagsDistinct(d, e);
  }

  // ---- Collisions ----

  /** One input the byte-family hash was evaluated on. */
  datatype Query = Query(domain: Domain, parts: seq<seq<byte>>)

  predicate ByteClash(c: Scheme, a: Query, b: Query) {
    a != b && Digest(c, a.domain, a.parts) == Digest(c, b.domain, b.parts)
  }

  /** No two of these inputs collide under the byte-family hash. */
  ghost predicate ByteCollisionFree(c: Scheme, q: set<Query>) {
    forall a, b {:trigger ByteClash(c, a, b)} :: a in q && b in q ==> !ByteClash(c, a, b)
  }

  lemma DistinctParts(c: Scheme, q: set<Query>, d: Domain, a: seq<seq<byte>>, e: Domain, b: seq<seq<byte>>)
    requires ByteCollisionFree(c, q) && Query(d, a) in q && Query(e, b) in q
    requires Digest(c, d, a) == Digest(c, e, b)
    ensures d == e && a == b
  {
    assert !ByteClash(c, Query(d, a), Query(e, b));
  }
}
