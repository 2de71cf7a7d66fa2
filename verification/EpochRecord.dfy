/** The record a roll stores: how it reads back, and that it certifies the key stored beside it. */
module EpochRecords {
  import opened Wrappers
  import opened Bytes
  import opened Crypto
  import opened Cursor
  import opened Statements
  import opened Credentials

  datatype Record = Record(publicKey: seq<byte>, signature: seq<byte>)

  predicate Fits(r: Record) {
    |r.publicKey| < U64 && |r.signature| < U64
  }

  /** Reads a record strictly: truncation, overstated lengths and trailing bytes are malformed. */
  function Decoded(bytes: seq<byte>): Result<Record> {
    var publicKey :- TakeFramed(bytes);
    var signature :- TakeFramed(publicKey.rest);
    if |signature.rest| != 0 then Err(Malformed) else Ok(Record(publicKey.value, signature.value))
  }

  /** What is read is exactly what a record's writer writes: its public key, then its signature. */
  lemma DecodesExactlyRecords(bytes: seq<byte>, r: Record)
    requires Fits(r)
    ensures Decoded(bytes) == Ok(r) <==> bytes == EpochRecord(r.publicKey, r.signature)
  {
    hide FramedField, TakeFramed;
    TakeFramedExact(bytes, r.publicKey, FramedField(r.signature));
    TakeFramedExact(FramedField(r.signature), r.signature, []);
    assert FramedField(r.signature) + [] == FramedField(r.signature);
    if Decoded(bytes) == Ok(r) {
      var cut := TakeFramed(bytes).value;
      TakeFramedExact(bytes, r.publicKey, cut.rest);
      TakeFramedExact(cut.rest, r.signature, []);
    }
  }

  /** The stored record of an epoch, if there is one: bytes that are not a record are the store's
      fault, not the caller's. */
  function Load(d: Disk, agora: Bytes32, epoch: nat, room: nat): Result<Option<Record>> {
    var bytes :- Loaded(d, agora, EpochCert(epoch), room);
    if bytes.None? then Ok(None)
    else match Decoded(bytes.value)
      case Err(_) => Err(Unavailable)
      case Ok(r) => Ok(Some(r))
  }

  /** What the store holds after a successful roll: the minted secret, its public key with the
      signature the root made, and the epoch as the cursor. */
  lemma RollStores(c: Scheme, d: Disk, agora: Bytes32, current: nat, entropy: Bytes32, room: nat, signed: Result<seq<byte>>)
    requires PublicKey(c, MintSigningSecret(entropy)).Some?
    requires RollEpoch(c, d, agora, current, entropy, room, signed).1.Ok?
    ensures signed.Ok?
    ensures var slots := RollEpoch(c, d, agora, current, entropy, room, signed).0.slots;
            && (agora, EpochKey(current)) in slots && slots[(agora, EpochKey(current))] == MintSigningSecret(entropy)
            && (agora, EpochCert(current)) in slots
            && slots[(agora, EpochCert(current))] == EpochRecord(PublicKey(c, MintSigningSecret(entropy)).value, signed.value)
            && (agora, EpochCursor) in slots && slots[(agora, EpochCursor)] == U64Bytes(current)
  {
    hide RollEpoch, DiscardExpired, PublicKey, EpochRecord, MintSigningSecret, ToLE;
    RollValue(c, d, agora, current, entropy, room, signed);
  }

  /** A witness's epoch half, taken from the device: its key, its record, and the root it is under. */
  predicate MadeOf(w: ChainWitness, key: Bytes32, record: Record, root: seq<byte>) {
    w.epochKey == key && w.epochPublicKey == record.publicKey && w.epochCert == record.signature && w.rootPublicKey == root
  }

  /** A successful roll leaves a device that can speak for its epoch: its cursor names the epoch, its
      record reads back as the stored secret's public key and the root's signature, and any witness
      made of the two under that root certifies the key for this agora and epoch. */
  lemma RollCertifies(c: Scheme, d: Disk, agora: Bytes32, current: nat, entropy: Bytes32, room: nat, signature: seq<byte>,
                      recordRoom: nat, root: seq<byte>, w: ChainWitness)
    requires PublicKey(c, MintSigningSecret(entropy)).Some? && current < U64 && |signature| == 64 && recordRoom >= 112
    requires RollEpoch(c, d, agora, current, entropy, room, Ok(signature)).1.Ok?
    requires EpochCertMessage(c, agora, current, PublicKey(c, MintSigningSecret(entropy)).value).Some?
    requires VerifySignature(c, root, EpochCertMessage(c, agora, current, PublicKey(c, MintSigningSecret(entropy)).value).value, signature)
    ensures var d' := RollEpoch(c, d, agora, current, entropy, room, Ok(signature)).0;
            && LoadCursor(d', agora) == Ok(Some(current))
            && LoadSecret(d', agora, EpochKey(current)).Ok?
            && Load(d', agora, current, recordRoom).Ok? && Load(d', agora, current, recordRoom).value.Some?
            && var record := Load(d', agora, current, recordRoom).value.value;
            && PublicKey(c, LoadSecret(d', agora, EpochKey(current)).value) == Some(record.publicKey)
            && (MadeOf(w, LoadSecret(d', agora, EpochKey(current)).value, record, root) ==> EpochKeyCertified(c, w, agora, current))
  {
    hide RollEpoch, PublicKey, EpochRecord, MintSigningSecret, ToLE, VerifySignature, EpochCertMessage, Decoded;
    RollStores(c, d, agora, current, entropy, room, Ok(signature));
    var d' := RollEpoch(c, d, agora, current, entropy, room, Ok(signature)).0;
    var pk := PublicKey(c, MintSigningSecret(entropy)).value;
    CursorValue(d', agora, current);
    RecordLength(pk, signature);
    DecodesExactlyRecords(EpochRecord(pk, signature), Record(pk, signature));
  }

  lemma RecordLength(publicKey: seq<byte>, signature: seq<byte>)
    ensures |EpochRecord(publicKey, signature)| == 16 + |publicKey| + |signature|
  {
  }
}
