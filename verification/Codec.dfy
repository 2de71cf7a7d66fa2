/** Strict reading and writing of byte layouts. */
module Cursor {
  import opened Wrappers
  import opened Bytes

  /** What was read, and what remains to be. */
  datatype Cut<+T> = Cut(value: T, rest: seq<byte>)

  function TakeVersion(rest: seq<byte>, version: byte): Result<Cut<byte>> {
    if |rest| == 0 || rest[0] != version then Err(Malformed) else Ok(Cut(version, rest[1..]))
  }

  function TakeU64(rest: seq<byte>): Result<Cut<nat>> {
    if |rest| < 8 then Err(Malformed) else Ok(Cut(LE(rest[..8]), rest[8..]))
  }

  function TakeDigest(rest: seq<byte>): Result<Cut<Bytes32>> {
    if |rest| < 32 then Err(Malformed) else Ok(Cut(rest[..32], rest[32..]))
  }

  /** A field after its own length: the length is split off first, so no declared length can
      overflow anything. */
  function TakeFramed(rest: seq<byte>): Result<Cut<seq<byte>>> {
    var length :- TakeU64(rest);
    if length.value > |length.rest| then Err(Malformed)
    else Ok(Cut(length.rest[..length.value], length.rest[length.value..]))
  }

  /** `count` entries of a fixed width, refusing a total no u64 can hold. */
  function TakeEntries(rest: seq<byte>, count: nat, width: nat): Result<Cut<seq<byte>>> {
    if count * width >= U64 || count * width > |rest| then Err(Malformed)
    else Ok(Cut(rest[..count * width], rest[count * width..]))
  }

  function FramedField(bytes: seq<byte>): seq<byte> {
    U64Bytes(|bytes|) + bytes
  }

  /** Reading a u64 accepts exactly what writing one produces. */
  lemma TakeU64Exact(rest: seq<byte>, n: nat, tail: seq<byte>)
    requires n < U64
    ensures TakeU64(rest) == Ok(Cut(n, tail)) <==> rest == U64Bytes(n) + tail
  {
    U64RoundTrip(n);
    if TakeU64(rest) == Ok(Cut(n, tail)) {
      U64Decoded(rest[..8]);
      assert rest == rest[..8] + rest[8..];
    }
    if rest == U64Bytes(n) + tail {
      assert rest[..8] == U64Bytes(n) && rest[8..] == tail;
    }
  }

  lemma TakeU64Bounded(rest: seq<byte>)
    requires TakeU64(rest).Ok?
    ensures TakeU64(rest).value.value < U64
  {
    U64Decoded(rest[..8]);
  }

  lemma TakeDigestExact(rest: seq<byte>, d: Bytes32, tail: seq<byte>)
    ensures TakeDigest(rest) == Ok(Cut(d, tail)) <==> rest == d + tail
  {
  }

  lemma TakeVersionExact(rest: seq<byte>, version: byte, tail: seq<byte>)
    ensures TakeVersion(rest, version) == Ok(Cut(version, tail)) <==> rest == [version] + tail
  {
  }

  lemma TakeFramedExact(rest: seq<byte>, field: seq<byte>, tail: seq<byte>)
    requires |field| < U64
    ensures TakeFramed(rest) == Ok(Cut(field, tail)) <==> rest == FramedField(field) + tail
  {
    TakeU64Exact(rest, |field|, field + tail);
    assert FramedField(field) + tail == U64Bytes(|field|) + (field + tail);
    if TakeFramed(rest) == Ok(Cut(field, tail)) {
      var length := TakeU64(rest).value;
      assert length.rest == length.rest[..length.value] + length.rest[length.value..];
    }
  }

  lemma TakeFramedBounded(rest: seq<byte>)
    requires TakeFramed(rest).Ok?
    ensures |TakeFramed(rest).value.value| < U64
  {
    TakeU64Bounded(rest);
  }

  lemma TakeEntriesExact(rest: seq<byte>, count: nat, width: nat, entries: seq<byte>, tail: seq<byte>)
    requires |entries| == count * width < U64
    ensures TakeEntries(rest, count, width) == Ok(Cut(entries, tail)) <==> rest == entries + tail
  {
  }

  // ---- Fixed-width lists ----

  function Joined(chunks: seq<seq<byte>>): seq<byte> {
    if |chunks| == 0 then [] else chunks[0] + Joined(chunks[1..])
  }

  ghost predicate AllWide(chunks: seq<seq<byte>>, width: nat) {
    forall i :: 0 <= i < |chunks| ==> |chunks[i]| == width
  }

  lemma {:induction false} JoinedLength(chunks: seq<seq<byte>>, width: nat)
    requires AllWide(chunks, width)
    ensures |Joined(chunks)| == |chunks| * width
  {
    if |chunks| > 0 {
      JoinedLength(chunks[1..], width);
      assert (|chunks| - 1) * width + width == |chunks| * width;
    }
  }

  lemma {:induction false} JoinedGrows(chunks: seq<seq<byte>>, more: seq<byte>)
    ensures Joined(chunks + [more]) == Joined(chunks) + more
  {
    if |chunks| == 0 {
      assert chunks + [more] == [more] && [more][1..] == [];
    } else {
      JoinedGrows(chunks[1..], more);
      assert (chunks + [more])[1..] == chunks[1..] + [more];
    }
  }

  /** Consecutive 32-byte entries of a buffer. */
  function Entries(bytes: seq<byte>): (entries: seq<Bytes32>)
    ensures |entries| == |bytes| / 32
    decreases |bytes|
  {
    if |bytes| < 32 then [] else [bytes[..32]] + Entries(bytes[32..])
  }

  /** Consecutive pairs of 32-byte entries. */
  function Pairs(bytes: seq<byte>): (pairs: seq<(Bytes32, Bytes32)>)
    ensures |pairs| == |bytes| / 64
    decreases |bytes|
  {
    if |bytes| < 64 then [] else [(bytes[..32], bytes[32..64])] + Pairs(bytes[64..])
  }

  function PairWidth(pair: (Bytes32, Bytes32)): (bytes: seq<byte>)
    ensures |bytes| == 64
  {
    var first: seq<byte> := pair.0;
    first + pair.1
  }

  function PairBytes(pairs: seq<(Bytes32, Bytes32)>): seq<seq<byte>> {
    seq(|pairs|, i requires 0 <= i < |pairs| => PairWidth(pairs[i]))
  }

  lemma {:induction false} EntriesOfJoined(entries: seq<Bytes32>)
    ensures Entries(Joined(entries)) == entries
  {
    if |entries| > 0 {
      JoinedLength(entries, 32);
      EntriesOfJoined(entries[1..]);
      var bytes := Joined(entries);
      assert bytes[..32] == entries[0] && bytes[32..] == Joined(entries[1..]);
    }
  }

  lemma {:induction false} PairsOfJoined(pairs: seq<(Bytes32, Bytes32)>)
    ensures Pairs(Joined(PairBytes(pairs))) == pairs
  {
    if |pairs| > 0 {
      JoinedLength(PairBytes(pairs), 64);
      PairsOfJoined(pairs[1..]);
      var bytes := Joined(PairBytes(pairs));
      assert PairBytes(pairs)[1..] == PairBytes(pairs[1..]);
      assert bytes[..32] == pairs[0].0 && bytes[32..64] == pairs[0].1 && bytes[64..] == Joined(PairBytes(pairs[1..]));
    }
  }

  lemma Regroup(a: seq<byte>, b: seq<byte>, rest: seq<byte>)
    ensures (a + b) + rest == a + (b + rest)
  {
  }

  /** Writes at a moving offset of a buffer. */
  class Writer {
    const out: array<byte>
    ghost const original: seq<byte>
    var at: nat
    ghost var written: seq<byte>

    ghost predicate Valid()
      reads this, out
    {
      && at <= out.Length == |original|
      && out[..at] == written
      && out[at..] == original[at..]
    }

    constructor (out: array<byte>)
      ensures Valid() && this.out == out && original == out[..] && at == 0 && written == []
    {
      this.out := out;
      original := out[..];
      at := 0;
      written := [];
    }

    method Put(bytes: seq<byte>)
      requires Valid() && at + |bytes| <= out.Length
      modifies this, out
      ensures Valid() && at == old(at) + |bytes| && written == old(written) + bytes
    {
      for i := 0 to |bytes|
        invariant at == old(at) && written == old(written)
        invariant out[..at] == written
        invariant out[at..at + i] == bytes[..i]
        invariant out[at + i..] == original[at + i..]
      {
        out[at + i] := bytes[i];
        assert out[at..at + i + 1] == out[at..at + i] + [bytes[i]];
        assert bytes[..i + 1] == bytes[..i] + [bytes[i]];
      }
      assert bytes[..|bytes|] == bytes;
      assert out[..at + |bytes|] == out[..at] + out[at..at + |bytes|];
      at := at + |bytes|;
      written := written + bytes;
    }

    /** What the buffer holds: everything written, then what was there before. */
    lemma Contents()
      requires Valid()
      ensures at <= out.Length == |original| && out[..] == written + original[at..]
    {
      assert out[..] == out[..at] + out[at..];
    }

    /** A variable field: its length, then its bytes. */
    method PutFramed(bytes: seq<byte>)
      requires Valid() && at + 8 + |bytes| <= out.Length
      modifies this, out
      ensures Valid() && at == old(at) + 8 + |bytes| && written == old(written) + U64Bytes(|bytes|) + bytes
    {
      Put(U64Bytes(|bytes|));
      Put(bytes);
    }
  }
}

/** The content bundle's canonical encoding. */
module Bundles {
  import opened Wrappers
  import opened Bytes
  import opened Cursor

  const FORMAT_VERSION: byte := 1

  datatype Attestation = Attestation(proof: seq<byte>, messageHash: Bytes32, nullifier: Bytes32)

  datatype Bundle = Bundle(content: seq<byte>, tag: Bytes32, attestation: Attestation)

  ghost predicate Fits(b: Bundle) {
    |b.content| < U64 && |b.attestation.proof| < U64
  }

  function EncodedLen(b: Bundle): nat {
    1 + 8 + |b.content| + 32 + 8 + |b.attestation.proof| + 32 + 32
  }

  function Encoded(b: Bundle): (bytes: seq<byte>)
    ensures |bytes| == EncodedLen(b)
  {
    [FORMAT_VERSION] + U64Bytes(|b.content|) + b.content + b.tag + U64Bytes(|b.attestation.proof|) + b.attestation.proof
    + b.attestation.messageHash + b.attestation.nullifier
  }

  /** The encoding as the decoder takes it apart. */
  lemma EncodedFields(b: Bundle)
    ensures Encoded(b) == [FORMAT_VERSION] + (FramedField(b.content) + (b.tag + (FramedField(b.attestation.proof)
                            + (b.attestation.messageHash + (b.attestation.nullifier + [])))))
  {
    var v: seq<byte> := [FORMAT_VERSION];
    var n: seq<byte> := b.attestation.nullifier + [];
    assert n == b.attestation.nullifier;
    var hn := b.attestation.messageHash + n;
    Regroup(v + U64Bytes(|b.content|) + b.content + b.tag + U64Bytes(|b.attestation.proof|) + b.attestation.proof,
            b.attestation.messageHash, n);
    Regroup(v + U64Bytes(|b.content|) + b.content + b.tag + U64Bytes(|b.attestation.proof|), b.attestation.proof, hn);
    Regroup(v + U64Bytes(|b.content|) + b.content + b.tag, U64Bytes(|b.attestation.proof|), b.attestation.proof + hn);
    Regroup(U64Bytes(|b.attestation.proof|), b.attestation.proof, hn);
    var phn := FramedField(b.attestation.proof) + hn;
    Regroup(v + U64Bytes(|b.content|) + b.content, b.tag, phn);
    Regroup(v + U64Bytes(|b.content|), b.content, b.tag + phn);
    Regroup(v, U64Bytes(|b.content|), b.content + (b.tag + phn));
    Regroup(U64Bytes(|b.content|), b.content, b.tag + phn);
  }

  function Decoded(bytes: seq<byte>): Result<Bundle> {
    var version :- TakeVersion(bytes, FORMAT_VERSION);
    var content :- TakeFramed(version.rest);
    var tag :- TakeDigest(content.rest);
    var proof :- TakeFramed(tag.rest);
    var hash :- TakeDigest(proof.rest);
    var nullifier :- TakeDigest(hash.rest);
    if nullifier.rest != [] then Err(Malformed)
    else Ok(Bundle(content.value, tag.value, Attestation(proof.value, hash.value, nullifier.value)))
  }

  /** Decoding accepts exactly the bytes encoding writes: what was written reads back, and
      every accepted input re-encodes to itself. */
  lemma DecodesExactlyEncodings(bytes: seq<byte>, b: Bundle)
    requires Fits(b)
    ensures Decoded(bytes) == Ok(b) <==> bytes == Encoded(b)
  {
    EncodedFields(b);
    var hash, nullifier := b.attestation.messageHash, b.attestation.nullifier;
    var r4 := nullifier + [];
    var r3 := hash + r4;
    var r2 := FramedField(b.attestation.proof) + r3;
    var r1 := b.tag + r2;
    var r0 := FramedField(b.content) + r1;
    TakeVersionExact(bytes, FORMAT_VERSION, r0);
    TakeFramedExact(r0, b.content, r1);
    TakeDigestExact(r1, b.tag, r2);
    TakeFramedExact(r2, b.attestation.proof, r3);
    TakeDigestExact(r3, hash, r4);
    TakeDigestExact(r4, nullifier, []);
    if Decoded(bytes) == Ok(b) {
      AcceptedReencodes(bytes);
    }
  }

  lemma AcceptedReencodes(bytes: seq<byte>)
    requires Decoded(bytes).Ok?
    ensures Fits(Decoded(bytes).value) && Encoded(Decoded(bytes).value) == bytes
  {
    var version := TakeVersion(bytes, FORMAT_VERSION).value;
    var content := TakeFramed(version.rest).value;
    var tag := TakeDigest(content.rest).value;
    var proof := TakeFramed(tag.rest).value;
    var hash := TakeDigest(proof.rest).value;
    var nullifier := TakeDigest(hash.rest).value;
    TakeFramedBounded(version.rest);
    TakeFramedBounded(tag.rest);
    TakeVersionExact(bytes, FORMAT_VERSION, version.rest);
    TakeFramedExact(version.rest, content.value, content.rest);
    TakeDigestExact(content.rest, tag.value, tag.rest);
    TakeFramedExact(tag.rest, proof.value, proof.rest);
    TakeDigestExact(proof.rest, hash.value, hash.rest);
    TakeDigestExact(hash.rest, nullifier.value, nullifier.rest);
    EncodedFields(Decoded(bytes).value);
  }

  /** The decoder's value is the one the writer wrote, and there is none otherwise. */
  lemma DecodesOnlyEncodings(bytes: seq<byte>)
    ensures forall b :: Decoded(bytes) == Ok(b) <==> Fits(b) && bytes == Encoded(b)
    ensures Decoded(bytes).Err? ==> Decoded(bytes) == Err(Malformed)
  {
    hide Decoded, Encoded;
    forall b ensures Decoded(bytes) == Ok(b) <==> Fits(b) && bytes == Encoded(b) {
      if Decoded(bytes) == Ok(b) {
        AcceptedReencodes(bytes);
      } else if Fits(b) {
        DecodesExactlyEncodings(bytes, b);
      }
    }
    RefusesMalformed(bytes);
  }

  lemma RefusesMalformed(bytes: seq<byte>)
    ensures Decoded(bytes).Err? ==> Decoded(bytes) == Err(Malformed)
  {
    hide LE;
  }

  /** Writes the canonical encoding at a moving offset, or refuses a short buffer untouched. */
  method Encode(b: Bundle, out: array<byte>) returns (r: Result<nat>)
    modifies out
    ensures r == if EncodedLen(b) <= out.Length then Ok(EncodedLen(b)) else Err(Malformed)
    ensures out[..] == if r.Ok? then Encoded(b) + old(out[EncodedLen(b)..]) else old(out[..])
  {
    var total := EncodedLen(b);
    if total > out.Length {
      return Err(Malformed);
    }
    hide ToLE, Encoded, Writer.Valid;
    var writer := new Writer(out);
    PutFields(writer, b);
    writer.Contents();
    return Ok(total);
  }

  method PutFields(writer: Writer, b: Bundle)
    requires writer.Valid() && writer.written == [] && writer.at == 0 && EncodedLen(b) <= writer.out.Length
    modifies writer, writer.out
    ensures writer.Valid() && writer.written == Encoded(b) && writer.at == EncodedLen(b)
  {
    hide ToLE, Writer.Valid;
    writer.Put([FORMAT_VERSION]);
    writer.PutFramed(b.content);
    writer.Put(b.tag);
    writer.PutFramed(b.attestation.proof);
    writer.Put(b.attestation.messageHash);
    writer.Put(b.attestation.nullifier);
  }

  /** Reads strictly, advancing what remains field by field: a bundle is read exactly from the
      bytes writing it gives, and everything else is refused. */
  method Decode(bytes: seq<byte>) returns (r: Result<Bundle>)
    ensures r == Decoded(bytes)
    ensures forall b :: r == Ok(b) <==> Fits(b) && bytes == Encoded(b)
    ensures r.Err? ==> r == Err(Malformed)
  {
    DecodesOnlyEncodings(bytes);
    var rest := bytes;
    var version :- TakeVersion(rest, FORMAT_VERSION);
    rest := version.rest;
    var content :- TakeFramed(rest);
    rest := content.rest;
    var tag :- TakeDigest(rest);
    rest := tag.rest;
    var proof :- TakeFramed(rest);
    rest := proof.rest;
    var messageHash :- TakeDigest(rest);
    rest := messageHash.rest;
    var nullifier :- TakeDigest(rest);
    rest := nullifier.rest;
    if rest != [] {
      return Err(Malformed);
    }
    return Ok(Bundle(content.value, tag.value, Attestation(proof.value, messageHash.value, nullifier.value)));
  }
}

/** The planned-migration handoff's canonical encoding. */
module Handoffs {
  import opened Wrappers
  import opened Bytes
  import opened Cursor

  const HANDOFF_VERSION: byte := 2

  datatype Handoff = Handoff(
    agora: Bytes32, credentialKey: Bytes32, rootOpening: Bytes32,
    rootPublicKey: seq<byte>, migrationCert: seq<byte>, retireCert: seq<byte>)

  ghost predicate Fits(h: Handoff) {
    |h.rootPublicKey| < U64 && |h.migrationCert| < U64 && |h.retireCert| < U64
  }

  function EncodedLen(h: Handoff): nat {
    1 + 32 + 32 + 32 + 8 + |h.rootPublicKey| + 8 + |h.migrationCert| + 8 + |h.retireCert|
  }

  function Encoded(h: Handoff): (bytes: seq<byte>)
    ensures |bytes| == EncodedLen(h)
  {
    [HANDOFF_VERSION] + h.agora + h.credentialKey + h.rootOpening + U64Bytes(|h.rootPublicKey|) + h.rootPublicKey
    + U64Bytes(|h.migrationCert|) + h.migrationCert + U64Bytes(|h.retireCert|) + h.retireCert
  }

  /** The encoding as the decoder takes it apart. */
  lemma EncodedFields(h: Handoff)
    ensures Encoded(h) == [HANDOFF_VERSION] + (h.agora + (h.credentialKey + (h.rootOpening
      + (FramedField(h.rootPublicKey) + (FramedField(h.migrationCert) + (FramedField(h.retireCert) + []))))))
  {
    var v: seq<byte> := [HANDOFF_VERSION];
    var head := v + h.agora + h.credentialKey + h.rootOpening;
    var r := FramedField(h.retireCert) + [];
    assert r == FramedField(h.retireCert);
    var mr := FramedField(h.migrationCert) + r;
    var pmr := FramedField(h.rootPublicKey) + mr;
    var headed := head + U64Bytes(|h.rootPublicKey|) + h.rootPublicKey;
    Regroup(headed + U64Bytes(|h.migrationCert|) + h.migrationCert, U64Bytes(|h.retireCert|), h.retireCert);
    Regroup(headed + U64Bytes(|h.migrationCert|), h.migrationCert, r);
    Regroup(headed, U64Bytes(|h.migrationCert|), h.migrationCert + r);
    Regroup(U64Bytes(|h.migrationCert|), h.migrationCert, r);
    Regroup(head + U64Bytes(|h.rootPublicKey|), h.rootPublicKey, mr);
    Regroup(head, U64Bytes(|h.rootPublicKey|), h.rootPublicKey + mr);
    Regroup(U64Bytes(|h.rootPublicKey|), h.rootPublicKey, mr);
    Regroup(v + h.agora + h.credentialKey, h.rootOpening, pmr);
    Regroup(v + h.agora, h.credentialKey, h.rootOpening + pmr);
    Regroup(v, h.agora, h.credentialKey + (h.rootOpening + pmr));
  }

  function Decoded(bytes: seq<byte>): Result<Handoff> {
    var version :- TakeVersion(bytes, HANDOFF_VERSION);
    var agora :- TakeDigest(version.rest);
    var key :- TakeDigest(agora.rest);
    var opening :- TakeDigest(key.rest);
    var publicKey :- TakeFramed(opening.rest);
    var cert :- TakeFramed(publicKey.rest);
    var retire :- TakeFramed(cert.rest);
    if retire.rest != [] then Err(Malformed)
    else Ok(Handoff(agora.value, key.value, opening.value, publicKey.value, cert.value, retire.value))
  }

  /** Decoding accepts exactly the bytes encoding writes. */
  lemma DecodesExactlyEncodings(bytes: seq<byte>, h: Handoff)
    requires Fits(h)
    ensures Decoded(bytes) == Ok(h) <==> bytes == Encoded(h)
  {
    EncodedFields(h);
    var r6 := FramedField(h.retireCert) + [];
    var r5 := FramedField(h.migrationCert) + r6;
    var r4 := FramedField(h.rootPublicKey) + r5;
    var r3 := h.rootOpening + r4;
    var r2 := h.credentialKey + r3;
    var r1 := h.agora + r2;
    TakeVersionExact(bytes, HANDOFF_VERSION, r1);
    TakeDigestExact(r1, h.agora, r2);
    TakeDigestExact(r2, h.credentialKey, r3);
    TakeDigestExact(r3, h.rootOpening, r4);
    TakeFramedExact(r4, h.rootPublicKey, r5);
    TakeFramedExact(r5, h.migrationCert, r6);
    TakeFramedExact(r6, h.retireCert, []);
    if Decoded(bytes) == Ok(h) {
      AcceptedReencodes(bytes);
    }
  }

  lemma AcceptedReencodes(bytes: seq<byte>)
    requires Decoded(bytes).Ok?
    ensures Fits(Decoded(bytes).value) && Encoded(Decoded(bytes).value) == bytes
  {
    var version := TakeVersion(bytes, HANDOFF_VERSION).value;
    var agora := TakeDigest(version.rest).value;
    var key := TakeDigest(agora.rest).value;
    var opening := TakeDigest(key.rest).value;
    var publicKey := TakeFramed(opening.rest).value;
    var cert := TakeFramed(publicKey.rest).value;
    var retire := TakeFramed(cert.rest).value;
    TakeFramedBounded(opening.rest);
    TakeFramedBounded(publicKey.rest);
    TakeFramedBounded(cert.rest);
    TakeVersionExact(bytes, HANDOFF_VERSION, version.rest);
    TakeDigestExact(version.rest, agora.value, agora.rest);
    TakeDigestExact(agora.rest, key.value, key.rest);
    TakeDigestExact(key.rest, opening.value, opening.rest);
    TakeFramedExact(opening.rest, publicKey.value, publicKey.rest);
    TakeFramedExact(publicKey.rest, cert.value, cert.rest);
    TakeFramedExact(cert.rest, retire.value, retire.rest);
    EncodedFields(Decoded(bytes).value);
  }

  /** The decoder's value is the one the writer wrote, and there is none otherwise. */
  lemma DecodesOnlyEncodings(bytes: seq<byte>)
    ensures forall h :: Decoded(bytes) == Ok(h) <==> Fits(h) && bytes == Encoded(h)
    ensures Decoded(bytes).Err? ==> Decoded(bytes) == Err(Malformed)
  {
    hide Decoded, Encoded;
    forall h ensures Decoded(bytes) == Ok(h) <==> Fits(h) && bytes == Encoded(h) {
      if Decoded(bytes) == Ok(h) {
        AcceptedReencodes(bytes);
      } else if Fits(h) {
        DecodesExactlyEncodings(bytes, h);
      }
    }
    RefusesMalformed(bytes);
  }

  lemma RefusesMalformed(bytes: seq<byte>)
    ensures Decoded(bytes).Err? ==> Decoded(bytes) == Err(Malformed)
  {
    hide LE;
  }

  method Encode(h: Handoff, out: array<byte>) returns (r: Result<nat>)
    modifies out
    ensures r == if EncodedLen(h) <= out.Length then Ok(EncodedLen(h)) else Err(Malformed)
    ensures out[..] == if r.Ok? then Encoded(h) + old(out[EncodedLen(h)..]) else old(out[..])
  {
    var total := EncodedLen(h);
    if total > out.Length {
      return Err(Malformed);
    }
    hide ToLE, Encoded, Writer.Valid;
    var writer := new Writer(out);
    PutFields(writer, h);
    writer.Contents();
    return Ok(total);
  }

  method PutFields(writer: Writer, h: Handoff)
    requires writer.Valid() && writer.written == [] && writer.at == 0 && EncodedLen(h) <= writer.out.Length
    modifies writer, writer.out
    ensures writer.Valid() && writer.written == Encoded(h) && writer.at == EncodedLen(h)
  {
    hide ToLE, Writer.Valid;
    writer.Put([HANDOFF_VERSION]);
    writer.Put(h.agora);
    writer.Put(h.credentialKey);
    writer.Put(h.rootOpening);
    PutCerts(writer, h);
  }

  method PutCerts(writer: Writer, h: Handoff)
    requires writer.Valid() && writer.written == [HANDOFF_VERSION] + h.agora + h.credentialKey + h.rootOpening
    requires writer.at == |writer.written| && EncodedLen(h) <= writer.out.Length
    modifies writer, writer.out
    ensures writer.Valid() && writer.written == Encoded(h) && writer.at == EncodedLen(h)
  {
    hide ToLE, Writer.Valid;
    writer.PutFramed(h.rootPublicKey);
    writer.PutFramed(h.migrationCert);
    writer.PutFramed(h.retireCert);
  }

  /** Reads strictly, field by field: a handoff is read exactly from the bytes writing it gives,
      and everything else is refused. */
  method Decode(bytes: seq<byte>) returns (r: Result<Handoff>)
    ensures r == Decoded(bytes)
    ensures forall h :: r == Ok(h) <==> Fits(h) && bytes == Encoded(h)
    ensures r.Err? ==> r == Err(Malformed)
  {
    DecodesOnlyEncodings(bytes);
    var rest := bytes;
    var version :- TakeVersion(rest, HANDOFF_VERSION);
    rest := version.rest;
    var agora :- TakeDigest(rest);
    rest := agora.rest;
    var credentialKey :- TakeDigest(rest);
    rest := credentialKey.rest;
    var rootOpening :- TakeDigest(rest);
    rest := rootOpening.rest;
    var rootPublicKey :- TakeFramed(rest);
    rest := rootPublicKey.rest;
    var migrationCert :- TakeFramed(rest);
    rest := migrationCert.rest;
    var retireCert :- TakeFramed(rest);
    rest := retireCert.rest;
    if rest != [] {
      return Err(Malformed);
    }
    return Ok(Handoff(agora.value, credentialKey.value, rootOpening.value, rootPublicKey.value, migrationCert.value,
                      retireCert.value));
  }
}

/** Which inputs a framed digest determines, encoding by encoding. */
module Canonical {
  import opened Wrappers
  import opened Bytes
  import opened Crypto
  import opened Framing
  import opened Statements
  import opened Decisions

  /** A decision's numbers have the widths the source gives them. */
  predicate DecisionFits(d: Decision) {
    match d
    case Policy(_, threshold, quorum) => threshold < 0x1_0000_0000 && quorum < 0x1_0000_0000
    case InboxHorizon(boundaries) => boundaries < U64
    case _ => true
  }

  lemma U32RoundTrip(n: nat)
    requires n < 0x1_0000_0000
    ensures LE(ToLE(n, 4)) == n
  {
    assert Pow256(4) == 0x1_0000_0000;
    LEToLE(n, 4);
  }

  lemma ContentInjective(a: Decision, b: Decision)
    requires DecisionFits(a) && DecisionFits(b) && a.Kind() == b.Kind() && a.Content() == b.Content()
    ensures a == b
  {
    match a {
      case Policy(class_, threshold, quorum) =>
        U32RoundTrip(threshold);
        U32RoundTrip(quorum);
        U32RoundTrip(b.threshold);
        U32RoundTrip(b.quorum);
        assert a.Content()[0] == b.Content()[0] && a.Content()[1] == b.Content()[1] && a.Content()[2] == b.Content()[2];
      case Revocation(leaf) =>
        assert a.Content()[0] == b.Content()[0];
      case Dissolution =>
      case InboxHorizon(boundaries) =>
        U64RoundTrip(boundaries);
        U64RoundTrip(b.boundaries);
        assert a.Content()[0] == b.Content()[0];
    }
  }

  /** A subject identifier's preimage determines the agora, the epoch, the approving class, the
      decision and the nonce: an approval approves exactly one thing. */
  lemma SubjectInjective(agora: Bytes32, epoch: nat, k: Bytes32, d: Decision, nonce: Bytes32,
                         agora': Bytes32, epoch': nat, k': Bytes32, d': Decision, nonce': Bytes32)
    requires epoch < U64 && epoch' < U64 && DecisionFits(d) && DecisionFits(d')
    requires Preimage(d.Kind(), SubjectParts(agora, epoch, k, d, nonce))
          == Preimage(d'.Kind(), SubjectParts(agora', epoch', k', d', nonce'))
    ensures agora == agora' && epoch == epoch' && k == k' && d == d' && nonce == nonce'
  {
    hide Preimage;
    SubjectFramable(agora, epoch, k, d, nonce);
    SubjectFramable(agora', epoch', k', d', nonce');
    PreimageInjective(d.Kind(), SubjectParts(agora, epoch, k, d, nonce), d'.Kind(), SubjectParts(agora', epoch', k', d', nonce'));
    SubjectPartsInjective(agora, epoch, k, d, nonce, agora', epoch', k', d', nonce');
  }

  lemma SubjectFramable(agora: Bytes32, epoch: nat, k: Bytes32, d: Decision, nonce: Bytes32)
    ensures Framable(SubjectParts(agora, epoch, k, d, nonce))
  {
    hide ToLE;
  }

  lemma SubjectPartsInjective(agora: Bytes32, epoch: nat, k: Bytes32, d: Decision, nonce: Bytes32,
                              agora': Bytes32, epoch': nat, k': Bytes32, d': Decision, nonce': Bytes32)
    requires epoch < U64 && epoch' < U64 && DecisionFits(d) && DecisionFits(d') && d.Kind() == d'.Kind()
    requires SubjectParts(agora, epoch, k, d, nonce) == SubjectParts(agora', epoch', k', d', nonce')
    ensures agora == agora' && epoch == epoch' && k == k' && d == d' && nonce == nonce'
  {
    var x, y := SubjectParts(agora, epoch, k, d, nonce), SubjectParts(agora', epoch', k', d', nonce');
    U64RoundTrip(epoch);
    U64RoundTrip(epoch');
    assert x[0] == y[0] && x[1] == y[1] && x[2] == y[2] && x[|x| - 1] == y[|y| - 1];
    assert x[3..|x| - 1] == d.Content() && y[3..|y| - 1] == d'.Content();
    ContentInjective(d, d');
  }

  /** A context identifier is no longer than a u64 can say. */
  predicate ActionFits(a: Action) {
    match a
    case Vouch(session, _) => |session| < U64
    case PolicyApproval(proposal, _) => |proposal| < U64
    case VerificationAccess(challenge) => |challenge| < U64
    case _ => true
  }

  lemma ActionPartsInjective(a: Action, b: Action)
    requires ActionParts(a) == ActionParts(b)
    ensures a == b
  {
    var x, y := ActionParts(a), ActionParts(b);
    assert x[0] == y[0] && x[0][0] == y[0][0];
    assert x[1] == y[1];
    if |x| == 3 {
      assert x[2] == y[2];
    }
  }

  /** The stub's binding determines the whole public input: a proof is for one instance only. */
  lemma ChainBindingInjective(p: ChainPublic, p': ChainPublic)
    requires p.epoch < U64 && p'.epoch < U64 && ActionFits(p.action) && ActionFits(p'.action)
    requires Preimage(StubChain, ChainParts(p)) == Preimage(StubChain, ChainParts(p'))
    ensures p == p'
  {
    hide ChainParts, Preimage;
    ChainFramable(p);
    ChainFramable(p');
    PreimageInjective(StubChain, ChainParts(p), StubChain, ChainParts(p'));
    ChainPartsInjective(p, p');
  }

  lemma ChainFramable(p: ChainPublic)
    requires ActionFits(p.action)
    ensures Framable(ChainParts(p))
  {
    forall i | 0 <= i < |ActionParts(p.action)| ensures |ActionParts(p.action)[i]| < U64 {
    }
  }

  lemma ChainPartsInjective(p: ChainPublic, p': ChainPublic)
    requires p.epoch < U64 && p'.epoch < U64 && ChainParts(p) == ChainParts(p')
    ensures p == p'
  {
    hide ToLE;
    var x, y := ChainParts(p), ChainParts(p');
    U64RoundTrip(p.epoch);
    U64RoundTrip(p'.epoch);
    assert x[0] == y[0] && x[1] == y[1] && x[2] == y[2] && x[3] == y[3] && x[4] == y[4];
    assert x[5..] == ActionParts(p.action) && y[5..] == ActionParts(p'.action);
    ActionPartsInjective(p.action, p'.action);
  }

  // ---- A proof is for one statement ----

  /** No proof of a chain statement verifies for another: not for another agora, epoch, root, action,
      subject or nullifier. */
  lemma ChainProofNames(c: Scheme, proof: StubProof<ChainWitness>, p: ChainPublic, p': ChainPublic, q: set<Query>)
    requires VerifyChain(c, proof, p) && VerifyChain(c, proof, p') && p.epoch < U64 && p'.epoch < U64
    requires Query(StubChain, ChainParts(p)) in q && Query(StubChain, ChainParts(p')) in q && ByteCollisionFree(c, q)
    ensures p == p'
  {
    hide ChainHolds, ChainType, ChainParts, ByteCollisionFree;
    DistinctParts(c, q, StubChain, ChainParts(p), StubChain, ChainParts(p'));
    ChainPartsInjective(p, p');
  }

  function MigrationParts(p: MigrationPublic): seq<seq<byte>> {
    [p.agora, p.classRoot, p.revocationRoot, p.spend, p.successor]
  }

  /** Nor does a migration's. */
  lemma MigrationProofNames(c: Scheme, proof: StubProof<MigrationWitness>, p: MigrationPublic, p': MigrationPublic, q: set<Query>)
    requires VerifyMigration(c, proof, p) && VerifyMigration(c, proof, p')
    requires Query(StubMigration, MigrationParts(p)) in q && Query(StubMigration, MigrationParts(p')) in q && ByteCollisionFree(c, q)
    ensures p == p'
  {
    hide MigrationHolds, MigrationType, ByteCollisionFree;
    var x, y := MigrationParts(p), MigrationParts(p');
    DistinctParts(c, q, StubMigration, x, StubMigration, y);
    assert x[0] == y[0] && x[1] == y[1] && x[2] == y[2] && x[3] == y[3] && x[4] == y[4];
  }

  function InstructionParts(p: InboxPublic): seq<seq<byte>> {
    [p.agora, p.leaf, p.inbox, ToLE(if p.action.Retire? then 0 else 1, 8)]
  }

  /** Nor does an inbox instruction's: a retirement is never a renewal. */
  lemma InboxProofNames(c: Scheme, proof: StubProof<InboxWitness>, p: InboxPublic, p': InboxPublic, q: set<Query>)
    requires VerifyInbox(c, proof, p) && VerifyInbox(c, proof, p')
    requires Query(StubInbox, InstructionParts(p)) in q && Query(StubInbox, InstructionParts(p')) in q && ByteCollisionFree(c, q)
    ensures p == p'
  {
    hide InboxHolds, ByteCollisionFree;
    var x, y := InstructionParts(p), InstructionParts(p');
    DistinctParts(c, q, StubInbox, x, StubInbox, y);
    U64RoundTrip(0);
    U64RoundTrip(1);
    assert x[0] == y[0] && x[1] == y[1] && x[2] == y[2] && x[3] == y[3];
  }
}
