/** The credential lifecycle over a store whose writes can fail, under any schedule of failures. */
module Credentials {
  import opened Wrappers
  import opened Bytes
  import opened Crypto
  import opened Exclusion
  import opened Cursor
  import opened Inboxes
  import opened Handoffs

  // ---- The store ----

  datatype Slot =
    | CredentialKey | RootOpening | RootPublicKey
    | EpochKey(epoch: nat) | EpochCert(epoch: nat)
    | InboxKey | EpochCursor
    | TagKeySlot(epoch: nat) | CachedRoot(policyClass: Bytes32, epoch: nat)

  type Address = (Bytes32, Slot)

  /** What the device holds, and which of the coming writes fail. */
  datatype Disk = Disk(slots: map<Address, seq<byte>>, faults: seq<bool>)

  predicate WriteFails(d: Disk) {
    |d.faults| > 0 && d.faults[0]
  }

  function Later(faults: seq<bool>): seq<bool> {
    if |faults| == 0 then [] else faults[1..]
  }

  /** One write: it replaces the slot's value, or fails and leaves it. */
  function Stored(d: Disk, agora: Bytes32, slot: Slot, value: seq<byte>): (Disk, Result<()>) {
    if WriteFails(d) then (Disk(d.slots, Later(d.faults)), Err(Unavailable))
    else (Disk(d.slots[(agora, slot) := value], Later(d.faults)), Ok(()))
  }

  /** One deletion, of whatever the slot held. */
  function Deleted(d: Disk, agora: Bytes32, slot: Slot): Disk {
    Disk(d.slots - {(agora, slot)}, d.faults)
  }

  /** Reads into a buffer with this much room. */
  function Loaded(d: Disk, agora: Bytes32, slot: Slot, room: nat): Result<Option<seq<byte>>> {
    if (agora, slot) !in d.slots then Ok(None)
    else if |d.slots[(agora, slot)]| > room then Err(Malformed)
    else Ok(Some(d.slots[(agora, slot)]))
  }

  function LoadSecret(d: Disk, agora: Bytes32, slot: Slot): Result<Bytes32> {
    var value :- Loaded(d, agora, slot, 32);
    if value.Some? && |value.value| == 32 then Ok(value.value) else Err(Unavailable)
  }

  /** The last epoch certified, if any. */
  function LoadCursor(d: Disk, agora: Bytes32): Result<Option<nat>> {
    var value :- Loaded(d, agora, EpochCursor, 8);
    match value
    case None => Ok(None)
    case Some(bytes) => if |bytes| == 8 then Ok(Some(LE(bytes))) else Err(Unavailable)
  }

  // ---- Creation ----

  datatype Material = Material(credentialKey: Bytes32, rootOpening: Bytes32, rootPublicKey: seq<byte>, inboxSecret: Bytes32)

  /** Four writes in order; one that fails takes back those before it. */
  function MaterialStored(d: Disk, agora: Bytes32, m: Material): (Disk, Result<()>) {
    var (d1, r1) := Stored(d, agora, CredentialKey, m.credentialKey);
    if r1.Err? then (d1, r1)
    else
      var (d2, r2) := Stored(d1, agora, RootOpening, m.rootOpening);
      if r2.Err? then (Deleted(d2, agora, CredentialKey), r2)
      else
        var (d3, r3) := Stored(d2, agora, RootPublicKey, m.rootPublicKey);
        if r3.Err? then (Deleted(Deleted(d3, agora, RootOpening), agora, CredentialKey), r3)
        else
          var (d4, r4) := Stored(d3, agora, InboxKey, m.inboxSecret);
          if r4.Err? then (Deleted(Deleted(Deleted(d4, agora, RootPublicKey), agora, RootOpening), agora, CredentialKey), r4)
          else (d4, Ok(()))
  }

  datatype Credential = Credential(commitment: Bytes32, inbox: Bytes32)

  datatype CredentialEntropy = CredentialEntropy(credentialKey: Bytes32, rootOpening: Bytes32, inboxKey: Bytes32)

  function Minted(entropy: CredentialEntropy, rootPublicKey: seq<byte>): Material {
    Material(MintSecret(entropy.credentialKey), MintSecret(entropy.rootOpening), rootPublicKey, MintInboxSecret(entropy.inboxKey))
  }

  /** Creates a credential: the root first, then the leaf, then the durable slots. */
  function Create(c: Scheme, d: Disk, agora: Bytes32, root: Result<seq<byte>>, entropy: CredentialEntropy): (Disk, Result<Credential>) {
    if root.Err? then (d, Err(root.error))
    else
      var m := Minted(entropy, root.value);
      match Commit(c, m.rootPublicKey, m.credentialKey, m.rootOpening, agora)
      case None => (d, Err(Malformed))
      case Some(commitment) =>
        var (d', stored) := MaterialStored(d, agora, m);
        (d', if stored.Err? then Err(stored.error) else Ok(Credential(commitment, c.inboxPublic(m.inboxSecret))))
  }

  // ---- Epochs ----

  const MAX_EPOCH_GAP: nat := 100_000

  function CheckedSpan(cursor: nat, current: nat): Result<nat> {
    if current < cursor || current - cursor > MAX_EPOCH_GAP then Err(Malformed) else Ok(cursor)
  }

  predicate EpochSlot(slot: Slot) {
    slot.EpochKey? || slot.EpochCert?
  }

  predicate InSweep(a: Address, agora: Bytes32, from: nat, to: nat) {
    a.0 == agora && EpochSlot(a.1) && from <= a.1.epoch < to
  }

  /** The slots without one agora's epoch keys and certificates in a range. */
  function Swept(slots: map<Address, seq<byte>>, agora: Bytes32, from: nat, to: nat): map<Address, seq<byte>> {
    map a | a in slots && !InSweep(a, agora, from, to) :: slots[a]
  }

  function DiscardExpired(d: Disk, agora: Bytes32, current: nat): (Disk, Result<()>) {
    match LoadCursor(d, agora)
    case Err(error) => (d, Err(error))
    case Ok(None) => (d, Ok(()))
    case Ok(Some(cursor)) =>
      if CheckedSpan(cursor, current).Err? then (d, Err(Malformed))
      else (Disk(Swept(d.slots, agora, cursor, current), d.faults), Ok(()))
  }

  function EpochRecord(publicKey: seq<byte>, signature: seq<byte>): seq<byte> {
    FramedField(publicKey) + FramedField(signature)
  }

  /** What must hold before a roll destroys anything: a plausible epoch, a record buffer with
      room for the key and both prefixes, and a signature. */
  function RollChecked(d: Disk, agora: Bytes32, current: nat, room: nat, signed: Result<seq<byte>>): Result<seq<byte>> {
    var cursor :- LoadCursor(d, agora);
    if cursor.Some? && current != cursor.value && CheckedSpan(cursor.value, current).Err? then Err(Malformed)
    else if room < 8 + 32 + 8 then Err(Malformed)
    else signed
  }

  /** Rolls the credential to an epoch: sign first, then sweep, then store the key, its
      certificate, and the cursor. */
  function RollEpoch(c: Scheme, d: Disk, agora: Bytes32, current: nat, entropy: Bytes32, room: nat, signed: Result<seq<byte>>):
    (Disk, Result<()>)
    requires PublicKey(c, MintSigningSecret(entropy)).Some?
  {
    match RollChecked(d, agora, current, room, signed)
    case Err(error) => (d, Err(error))
    case Ok(signature) =>
      var (d1, r1) := DiscardExpired(d, agora, current);
      if r1.Err? then (d1, r1)
      else
        var (d2, r2) := Stored(d1, agora, EpochKey(current), MintSigningSecret(entropy));
        if r2.Err? then (d2, r2)
        else
          var (d3, r3) := Stored(d2, agora, EpochCert(current),
                                 EpochRecord(PublicKey(c, MintSigningSecret(entropy)).value, signature));
          if r3.Err? then (Deleted(d3, agora, EpochKey(current)), r3)
          else Stored(d3, agora, EpochCursor, U64Bytes(current))
  }

  // ---- Migration ----

  /** The device without anything that acts: the inbox secret, then what the cursor reaches. */
  function ActingDestroyed(d: Disk, agora: Bytes32): (Disk, Result<()>) {
    var d1 := Deleted(d, agora, InboxKey);
    match LoadCursor(d1, agora)
    case Err(error) => (d1, Err(error))
    case Ok(None) => (d1, Ok(()))
    case Ok(Some(cursor)) =>
      var (d2, r2) := DiscardExpired(d1, agora, cursor);
      if r2.Err? then (d2, r2)
      else (Deleted(Deleted(Deleted(d2, agora, EpochKey(cursor)), agora, EpochCert(cursor)), agora, EpochCursor), Ok(()))
  }

  /** The handoff the old device's stored material and two signatures make. */
  function HandoffOf(d: Disk, agora: Bytes32, keyRoom: nat, cert: Result<seq<byte>>, retire: Result<seq<byte>>): Result<Handoff> {
    var key :- LoadSecret(d, agora, CredentialKey);
    var opening :- LoadSecret(d, agora, RootOpening);
    var publicKey :- Loaded(d, agora, RootPublicKey, keyRoom);
    if publicKey.None? then Err(Unavailable)
    else
      var inbox :- LoadSecret(d, agora, InboxKey);
      var certificate :- cert;
      var retirement :- retire;
      Ok(Handoff(agora, key, opening, publicKey.value, certificate, retirement))
  }

  /** Authorizes a planned migration: every signature and the encoding first, then the acting
      material is destroyed. */
  function AuthorizeMigration(d: Disk, agora: Bytes32, keyRoom: nat, cert: Result<seq<byte>>, retire: Result<seq<byte>>, outRoom: nat):
    (Disk, Result<seq<byte>>)
  {
    match HandoffOf(d, agora, keyRoom, cert, retire)
    case Err(error) => (d, Err(error))
    case Ok(handoff) =>
      if EncodedLen(handoff) > outRoom then (d, Err(Malformed))
      else
        var (d', destroyed) := ActingDestroyed(d, agora);
        (d', if destroyed.Err? then Err(destroyed.error) else Ok(Encoded(handoff)))
  }

  datatype Successor = Successor(commitment: Bytes32, spend: Bytes32, inbox: Bytes32)

  function SuccessorMaterial(h: Handoff, rootPublicKey: seq<byte>, opening: Bytes32, inboxKey: Bytes32): Material {
    Material(h.credentialKey, MintSecret(opening), rootPublicKey, MintInboxSecret(inboxKey))
  }

  /** Completes a planned migration on the successor: the new leaf and the spend, then the
      durable slots. */
  function CompleteMigration(c: Scheme, d: Disk, agora: Bytes32, h: Handoff, rootPublicKey: seq<byte>, opening: Bytes32,
                             inboxKey: Bytes32): (Disk, Result<Successor>)
  {
    if h.agora != agora then (d, Err(Malformed))
    else
      var m := SuccessorMaterial(h, rootPublicKey, opening, inboxKey);
      match Commit(c, rootPublicKey, h.credentialKey, m.rootOpening, agora)
      case None => (d, Err(Malformed))
      case Some(commitment) =>
        match Commit(c, h.rootPublicKey, h.credentialKey, h.rootOpening, agora)
        case None => (d, Err(Malformed))
        case Some(consumed) =>
          var (d', stored) := MaterialStored(d, agora, m);
          (d', if stored.Err? then Err(stored.error)
               else Ok(Successor(commitment, SpendNullifier(c, h.credentialKey, consumed, agora), c.inboxPublic(m.inboxSecret))))
  }

  // ---- As the device runs it ----

  /** The host's store: it destroys what it is told to, and a write may fail. */
  class SecureStore {
    var slots: map<Address, seq<byte>>
    var faults: seq<bool>

    function View(): Disk
      reads this
    {
      Disk(slots, faults)
    }

    method Write(agora: Bytes32, slot: Slot, value: seq<byte>) returns (r: Result<()>)
      modifies this
      ensures (View(), r) == Stored(old(View()), agora, slot, value)
    {
      var fails := |faults| > 0 && faults[0];
      faults := Later(faults);
      if fails {
        return Err(Unavailable);
      }
      slots := slots[(agora, slot) := value];
      return Ok(());
    }

    method Delete(agora: Bytes32, slot: Slot)
      modifies this
      ensures View() == Deleted(old(View()), agora, slot)
    {
      slots := slots - {(agora, slot)};
    }
  }

  method StoreMaterial(store: SecureStore, agora: Bytes32, m: Material) returns (r: Result<()>)
    modifies store
    ensures (store.View(), r) == MaterialStored(old(store.View()), agora, m)
  {
    r := store.Write(agora, CredentialKey, m.credentialKey);
    if r.Err? {
      return r;
    }
    r := store.Write(agora, RootOpening, m.rootOpening);
    if r.Err? {
      store.Delete(agora, CredentialKey);
      return r;
    }
    r := store.Write(agora, RootPublicKey, m.rootPublicKey);
    if r.Err? {
      store.Delete(agora, RootOpening);
      store.Delete(agora, CredentialKey);
      return r;
    }
    r := store.Write(agora, InboxKey, m.inboxSecret);
    if r.Err? {
      store.Delete(agora, RootPublicKey);
      store.Delete(agora, RootOpening);
      store.Delete(agora, CredentialKey);
      return r;
    }
  }

  /** The root first, then the leaf, then the slots: nothing is stored unless the root exists. */
  method NewCredential(c: Scheme, store: SecureStore, agora: Bytes32, root: Result<seq<byte>>, entropy: CredentialEntropy)
    returns (r: Result<Credential>)
    modifies store
    ensures (store.View(), r) == Create(c, old(store.View()), agora, root, entropy)
  {
    hide Commit, MaterialStored, MintSecret, MintInboxSecret;
    if root.Err? {
      return Err(root.error);
    }
    var m := Minted(entropy, root.value);
    var commitment := Commit(c, m.rootPublicKey, m.credentialKey, m.rootOpening, agora);
    if commitment.None? {
      return Err(Malformed);
    }
    var stored := StoreMaterial(store, agora, m);
    if stored.Err? {
      return Err(stored.error);
    }
    return Ok(Credential(commitment.value, c.inboxPublic(m.inboxSecret)));
  }

  /** The successor's leaf and the spend, derived before anything is stored. */
  method Complete(c: Scheme, store: SecureStore, agora: Bytes32, h: Handoff, rootPublicKey: seq<byte>, opening: Bytes32,
                  inboxKey: Bytes32) returns (r: Result<Successor>)
    modifies store
    ensures (store.View(), r) == CompleteMigration(c, old(store.View()), agora, h, rootPublicKey, opening, inboxKey)
  {
    hide Commit, MaterialStored, MintSecret, MintInboxSecret, SpendNullifier;
    if h.agora != agora {
      return Err(Malformed);
    }
    var m := SuccessorMaterial(h, rootPublicKey, opening, inboxKey);
    var commitment := Commit(c, rootPublicKey, h.credentialKey, m.rootOpening, agora);
    if commitment.None? {
      return Err(Malformed);
    }
    var consumed := Commit(c, h.rootPublicKey, h.credentialKey, h.rootOpening, agora);
    if consumed.None? {
      return Err(Malformed);
    }
    var spend := SpendNullifier(c, h.credentialKey, consumed.value, agora);
    var stored := StoreMaterial(store, agora, m);
    if stored.Err? {
      return Err(stored.error);
    }
    return Ok(Successor(commitment.value, spend, c.inboxPublic(m.inboxSecret)));
  }

  /** The sweep as it runs: two deletions an epoch, from the cursor up to the epoch given. */
  method Discard(store: SecureStore, agora: Bytes32, current: nat) returns (r: Result<()>)
    modifies store
    ensures (store.View(), r) == DiscardExpired(old(store.View()), agora, current)
  {
    var loaded := LoadCursor(store.View(), agora);
    if loaded.Err? {
      return Err(loaded.error);
    }
    if loaded.value.None? {
      return Ok(());
    }
    var cursor := loaded.value.value;
    if CheckedSpan(cursor, current).Err? {
      return Err(Malformed);
    }
    ghost var before := store.View();
    SweepNothing(before.slots, agora, cursor);
    for epoch := cursor to current
      invariant store.View() == Disk(Swept(before.slots, agora, cursor, epoch), before.faults)
    {
      SweepNext(before.slots, agora, cursor, epoch);
      store.Delete(agora, EpochKey(epoch));
      store.Delete(agora, EpochCert(epoch));
    }
    return Ok(());
  }

  method Roll(c: Scheme, store: SecureStore, agora: Bytes32, current: nat, entropy: Bytes32, room: nat, signed: Result<seq<byte>>)
    returns (r: Result<()>)
    requires PublicKey(c, MintSigningSecret(entropy)).Some?
    modifies store
    ensures (store.View(), r) == RollEpoch(c, old(store.View()), agora, current, entropy, room, signed)
  {
    hide DiscardExpired, PublicKey, EpochRecord, MintSigningSecret;
    var checked := RollChecked(store.View(), agora, current, room, signed);
    if checked.Err? {
      return Err(checked.error);
    }
    r := Discard(store, agora, current);
    if r.Err? {
      return r;
    }
    r := store.Write(agora, EpochKey(current), MintSigningSecret(entropy));
    if r.Err? {
      return r;
    }
    r := store.Write(agora, EpochCert(current), EpochRecord(PublicKey(c, MintSigningSecret(entropy)).value, checked.value));
    if r.Err? {
      store.Delete(agora, EpochKey(current));
      return r;
    }
    r := store.Write(agora, EpochCursor, U64Bytes(current));
  }

  method DestroyActing(store: SecureStore, agora: Bytes32) returns (r: Result<()>)
    modifies store
    ensures (store.View(), r) == ActingDestroyed(old(store.View()), agora)
  {
    hide DiscardExpired;
    store.Delete(agora, InboxKey);
    var loaded := LoadCursor(store.View(), agora);
    if loaded.Err? {
      return Err(loaded.error);
    }
    if loaded.value.None? {
      return Ok(());
    }
    var cursor := loaded.value.value;
    r := Discard(store, agora, cursor);
    if r.Err? {
      return r;
    }
    store.Delete(agora, EpochKey(cursor));
    store.Delete(agora, EpochCert(cursor));
    store.Delete(agora, EpochCursor);
    return Ok(());
  }

  method Authorize(store: SecureStore, agora: Bytes32, keyRoom: nat, cert: Result<seq<byte>>, retire: Result<seq<byte>>, outRoom: nat)
    returns (r: Result<seq<byte>>)
    modifies store
    ensures (store.View(), r) == AuthorizeMigration(old(store.View()), agora, keyRoom, cert, retire, outRoom)
  {
    hide HandoffOf, Encoded;
    var handoff := HandoffOf(store.View(), agora, keyRoom, cert, retire);
    if handoff.Err? {
      return Err(handoff.error);
    }
    if EncodedLen(handoff.value) > outRoom {
      return Err(Malformed);
    }
    var bytes := Encoded(handoff.value);
    var destroyed := DestroyActing(store, agora);
    if destroyed.Err? {
      return Err(destroyed.error);
    }
    return Ok(bytes);
  }

  lemma SweepNothing(slots: map<Address, seq<byte>>, agora: Bytes32, from: nat)
    ensures Swept(slots, agora, from, from) == slots
  {
  }

  lemma SweepNext(slots: map<Address, seq<byte>>, agora: Bytes32, from: nat, to: nat)
    requires from <= to
    ensures Swept(slots, agora, from, to + 1) == Swept(slots, agora, from, to) - {(agora, EpochKey(to))} - {(agora, EpochCert(to))}
  {
  }

  // ---- All four slots or none ----

  predicate HasDurable(d: Disk, agora: Bytes32, slot: Slot) {
    (agora, slot) in d.slots
  }

  predicate NoneStored(d: Disk, agora: Bytes32) {
    && !HasDurable(d, agora, CredentialKey) && !HasDurable(d, agora, RootOpening)
    && !HasDurable(d, agora, RootPublicKey) && !HasDurable(d, agora, InboxKey)
  }

  predicate AllStored(d: Disk, agora: Bytes32) {
    && HasDurable(d, agora, CredentialKey) && HasDurable(d, agora, RootOpening)
    && HasDurable(d, agora, RootPublicKey) && HasDurable(d, agora, InboxKey)
  }

  function WithMaterial(slots: map<Address, seq<byte>>, agora: Bytes32, m: Material): map<Address, seq<byte>> {
    slots[(agora, CredentialKey) := m.credentialKey][(agora, RootOpening) := m.rootOpening]
         [(agora, RootPublicKey) := m.rootPublicKey][(agora, InboxKey) := m.inboxSecret]
  }

  /** From empty slots: all four with exactly the material, or the store just as it was. */
  lemma MaterialAllOrNone(d: Disk, agora: Bytes32, m: Material)
    requires NoneStored(d, agora)
    ensures var (d', r) := MaterialStored(d, agora, m);
            d'.slots == if r.Ok? then WithMaterial(d.slots, agora, m) else d.slots
  {
  }

  // The durable slots, in the order they are written.
  const DURABLE: seq<Slot> := [CredentialKey, RootOpening, RootPublicKey, InboxKey]

  /** Which of the four writes is the first to fail; past them if none does. */
  function FirstFault(faults: seq<bool>, count: nat): (f: nat)
    ensures f <= count
  {
    if count == 0 || (|faults| > 0 && faults[0]) then 0 else 1 + FirstFault(Later(faults), count - 1)
  }

  /** The first few durable slots. */
  function Leading(agora: Bytes32, count: nat): set<Address>
    requires count <= |DURABLE|
  {
    if count == 0 then {} else Leading(agora, count - 1) + {(agora, DURABLE[count - 1])}
  }

  predicate Partial(d: Disk, agora: Bytes32) {
    !AllStored(d, agora) && !NoneStored(d, agora)
  }

  /** Over any store whatever: a storing fails exactly when one of its four writes does, and then
      unwinds every slot written before the failure, whoever's value it held. So it leaves a
      partial credential if and only if the first write failed over a partial one, or a later
      write failed while a slot from it on was held. */
  lemma OverwritingCanTear(d: Disk, agora: Bytes32, m: Material)
    ensures var (d', r), f := MaterialStored(d, agora, m), FirstFault(d.faults, 4);
            && (r.Ok? <==> f == 4)
            && (f < 4 ==> d'.slots == d.slots - Leading(agora, f))
            && (f < 4 ==> (Partial(d', agora) <==>
                  if f == 0 then Partial(d, agora) else exists i :: f <= i < 4 && HasDurable(d, agora, DURABLE[i])))
  {
    var d', f := MaterialStored(d, agora, m).0, FirstFault(d.faults, 4);
    StoringUnwinds(d, agora, m);
    if 0 < f < 4 {
      UnwoundHolds(d, d', agora, f);
    }
  }

  /** One such input: a whole credential, and the second of the four writes failing. */
  lemma SecondWriteTears(d: Disk, agora: Bytes32, m: Material)
    requires AllStored(d, agora) && |d.faults| >= 2 && !d.faults[0] && d.faults[1]
    ensures MaterialStored(d, agora, m).1.Err? && Partial(MaterialStored(d, agora, m).0, agora)
  {
    OverwritingCanTear(d, agora, m);
    assert FirstFault(d.faults, 4) == 1 + FirstFault(Later(d.faults), 3) == 1;
    assert HasDurable(d, agora, DURABLE[1]);
  }

  lemma StoringUnwinds(d: Disk, agora: Bytes32, m: Material)
    ensures MaterialStored(d, agora, m).1.Ok? <==> FirstFault(d.faults, 4) == 4
    ensures FirstFault(d.faults, 4) < 4 ==> MaterialStored(d, agora, m).0.slots == d.slots - Leading(agora, FirstFault(d.faults, 4))
  {
    LeadingSlots(agora);
    var f1, f2 := Later(d.faults), Later(Later(d.faults));
    assert FirstFault(d.faults, 4) == if WriteFails(d) then 0 else 1 + FirstFault(f1, 3);
    assert FirstFault(f1, 3) == if |f1| > 0 && f1[0] then 0 else 1 + FirstFault(f2, 2);
    assert FirstFault(f2, 2) == if |f2| > 0 && f2[0] then 0 else 1 + FirstFault(Later(f2), 1);
  }

  lemma LeadingSlots(agora: Bytes32)
    ensures Leading(agora, 0) == {}
    ensures Leading(agora, 1) == {(agora, CredentialKey)}
    ensures Leading(agora, 2) == {(agora, CredentialKey), (agora, RootOpening)}
    ensures Leading(agora, 3) == {(agora, CredentialKey), (agora, RootOpening), (agora, RootPublicKey)}
  {
  }

  lemma UnwoundHolds(d: Disk, d': Disk, agora: Bytes32, f: nat)
    requires 0 < f < 4 && d'.slots == d.slots - Leading(agora, f)
    ensures Partial(d', agora) <==> exists i :: f <= i < 4 && HasDurable(d, agora, DURABLE[i])
  {
    LeadingSlots(agora);
    assert DURABLE[0] == CredentialKey && DURABLE[1] == RootOpening && DURABLE[2] == RootPublicKey && DURABLE[3] == InboxKey;
    assert !HasDurable(d', agora, DURABLE[0]);
    assert HasDurable(d', agora, DURABLE[1]) <==> f <= 1 && HasDurable(d, agora, DURABLE[1]);
    assert HasDurable(d', agora, DURABLE[2]) <==> f <= 2 && HasDurable(d, agora, DURABLE[2]);
    assert HasDurable(d', agora, DURABLE[3]) <==> HasDurable(d, agora, DURABLE[3]);
  }

  lemma SecretValue(entropy: Bytes32)
    ensures LE(MintSecret(entropy)) == LE(entropy) % SPAN254
  {
    Pow256Of32();
    SplitTop(entropy);
    SplitTop(MintSecret(entropy));
    assert MintSecret(entropy)[..31] == entropy[..31];
    var low, top := LE(entropy[..31]), entropy[31];
    assert LE(entropy) == (low + Pow256(31) * (top % 64)) + SPAN254 * (top / 64);
  }

  lemma SigningSecretValue(entropy: Bytes32)
    ensures LE(MintSigningSecret(entropy)) == LE(entropy) % SPAN251
  {
    Pow256Of32();
    SplitTop(entropy);
    SplitTop(MintSigningSecret(entropy));
    assert MintSigningSecret(entropy)[..31] == entropy[..31];
    var low, top := LE(entropy[..31]), entropy[31];
    assert LE(entropy) == (low + Pow256(31) * (top % 8)) + SPAN251 * (top / 8);
  }

  lemma InboxSecretValue(entropy: Bytes32)
    ensures LE(MintInboxSecret(entropy)) % 8 == 0 && SPAN254 <= LE(MintInboxSecret(entropy)) < 2 * SPAN254
  {
    Pow256Of32();
    var x := MintInboxSecret(entropy);
    SplitTop(x);
    assert LE(x) == x[0] + 256 * LE(x[1..]);
  }

  /** Minting clears just the bits above the width, so a minted secret is its entropy reduced, and
      canonical; an inbox secret is its entropy clamped, a multiple of eight at or above 2^254. */
  lemma MintedValue(entropy: Bytes32)
    ensures LE(MintSecret(entropy)) == LE(entropy) % SPAN254 < R
    ensures LE(MintSigningSecret(entropy)) == LE(entropy) % SPAN251
    ensures LE(MintInboxSecret(entropy)) % 8 == 0 && SPAN254 <= LE(MintInboxSecret(entropy)) < 2 * SPAN254
    ensures forall i :: 0 < i < 31 ==> MintInboxSecret(entropy)[i] == entropy[i]
  {
    hide LE, MintSecret, MintSigningSecret;
    SecretValue(entropy);
    SigningSecretValue(entropy);
    InboxSecretValue(entropy);
  }

  /** The four durable slots, written with these values. */
  predicate Holding(d: Disk, d': Disk, agora: Bytes32, key: Bytes32, opening: Bytes32, root: seq<byte>, inbox: Bytes32) {
    d'.slots == d.slots[(agora, CredentialKey) := key][(agora, RootOpening) := opening][(agora, RootPublicKey) := root][(agora, InboxKey) := inbox]
  }

  /** Creation from empty slots stores the whole credential it returns, or nothing: exactly when the
      root exists and names a point and no write fails, the four slots hold a credential key, an
      opening and an inbox secret each minted from its own entropy and the root's key, and what is
      returned is their leaf and that inbox's public half. */
  lemma CreateAllOrNone(c: Scheme, d: Disk, agora: Bytes32, root: Result<seq<byte>>, entropy: CredentialEntropy)
    requires NoneStored(d, agora)
    ensures var (d', r) := Create(c, d, agora, root, entropy);
            && (r.Ok? <==> root.Ok? && DecodePoint(c, root.value).Some? && FirstFault(d.faults, 4) == 4)
            && (r.Err? ==> d'.slots == d.slots)
            && (r.Ok? ==>
                  && Holding(d, d', agora, MintSecret(entropy.credentialKey), MintSecret(entropy.rootOpening), root.value,
                             MintInboxSecret(entropy.inboxKey))
                  && Commit(c, root.value, MintSecret(entropy.credentialKey), MintSecret(entropy.rootOpening), agora) == Some(r.value.commitment)
                  && r.value.inbox == c.inboxPublic(MintInboxSecret(entropy.inboxKey)))
  {
    hide MintSecret, MintInboxSecret, MaterialStored, FirstFault, Poseidon;
    if root.Ok? {
      MaterialAllOrNone(d, agora, Minted(entropy, root.value));
      StoringUnwinds(d, agora, Minted(entropy, root.value));
    }
  }

  /** And so does completing a migration, exactly when the handoff is this agora's and both root keys
      name points: the successor keeps the credential key under a root, an opening and an inbox secret
      of its own, and returns its leaf and the spend that consumes the old one. */
  lemma CompleteAllOrNone(c: Scheme, d: Disk, agora: Bytes32, h: Handoff, rootPublicKey: seq<byte>, opening: Bytes32, inboxKey: Bytes32)
    requires NoneStored(d, agora)
    ensures var (d', r) := CompleteMigration(c, d, agora, h, rootPublicKey, opening, inboxKey);
            && (r.Ok? <==> h.agora == agora && DecodePoint(c, rootPublicKey).Some? && DecodePoint(c, h.rootPublicKey).Some?
                           && FirstFault(d.faults, 4) == 4)
            && (r.Err? ==> d'.slots == d.slots)
            && (r.Ok? ==>
                  && Holding(d, d', agora, h.credentialKey, MintSecret(opening), rootPublicKey, MintInboxSecret(inboxKey))
                  && Commit(c, rootPublicKey, h.credentialKey, MintSecret(opening), agora) == Some(r.value.commitment)
                  && Commit(c, h.rootPublicKey, h.credentialKey, h.rootOpening, agora).Some?
                  && r.value.spend == SpendNullifier(c, h.credentialKey,
                                                     Commit(c, h.rootPublicKey, h.credentialKey, h.rootOpening, agora).value, agora)
                  && r.value.inbox == c.inboxPublic(MintInboxSecret(inboxKey)))
  {
    hide MintSecret, MintInboxSecret, SpendNullifier, MaterialStored, FirstFault, Poseidon;
    MaterialAllOrNone(d, agora, SuccessorMaterial(h, rootPublicKey, opening, inboxKey));
    StoringUnwinds(d, agora, SuccessorMaterial(h, rootPublicKey, opening, inboxKey));
  }

  // ---- The sweep ----

  /** An epoch key or certificate of one agora, below an epoch. */
  predicate Stale(a: Address, agora: Bytes32, below: nat) {
    a.0 == agora && EpochSlot(a.1) && a.1.epoch < below
  }

  function StaleSlots(d: Disk, agora: Bytes32, below: nat): set<Address> {
    set a | a in d.slots && Stale(a, agora, below)
  }

  /** The stored epoch slots a sweep to an epoch would not reach: those below the cursor, or all
      of them when there is none. */
  predicate Unreached(a: Address, agora: Bytes32, cursor: Option<nat>, to: nat) {
    Stale(a, agora, if cursor.None? then to else if cursor.value < to then cursor.value else to)
  }

  function UnreachedSlots(d: Disk, agora: Bytes32, cursor: Option<nat>, to: nat): set<Address> {
    set a | a in d.slots && Unreached(a, agora, cursor, to)
  }

  /** A discard leaves exactly what it cannot reach: no stale key or certificate remains if and
      only if none lay outside the range from the cursor. */
  lemma DiscardLeavesUnreached(d: Disk, agora: Bytes32, to: nat)
    requires DiscardExpired(d, agora, to).1.Ok?
    ensures StaleSlots(DiscardExpired(d, agora, to).0, agora, to) == UnreachedSlots(d, agora, LoadCursor(d, agora).value, to)
  {
    hide LoadCursor;
  }

  /** A roll that is refused or goes unsigned changes nothing. */
  lemma RefusedRollChangesNothing(c: Scheme, d: Disk, agora: Bytes32, current: nat, entropy: Bytes32, room: nat, signed: Result<seq<byte>>)
    requires PublicKey(c, MintSigningSecret(entropy)).Some?
    requires signed.Err? || RollChecked(d, agora, current, room, signed).Err?
    ensures RollEpoch(c, d, agora, current, entropy, room, signed).0 == d
    ensures RollEpoch(c, d, agora, current, entropy, room, signed).1.Err?
  {
  }

  /** What a successful roll leaves: the swept store with the new key, certificate and cursor. */
  lemma RollValue(c: Scheme, d: Disk, agora: Bytes32, current: nat, entropy: Bytes32, room: nat, signed: Result<seq<byte>>)
    requires PublicKey(c, MintSigningSecret(entropy)).Some?
    requires RollEpoch(c, d, agora, current, entropy, room, signed).1.Ok?
    ensures signed.Ok? && DiscardExpired(d, agora, current).1.Ok?
    ensures RollEpoch(c, d, agora, current, entropy, room, signed).0.slots
         == DiscardExpired(d, agora, current).0.slots
              [(agora, EpochKey(current)) := MintSigningSecret(entropy)]
              [(agora, EpochCert(current)) := EpochRecord(PublicKey(c, MintSigningSecret(entropy)).value, signed.value)]
              [(agora, EpochCursor) := U64Bytes(current)]
  {
    hide DiscardExpired, PublicKey, EpochRecord, MintSigningSecret;
  }

  /** The cursor reads exactly as an eight-byte epoch was written: anything shorter is the store's
      fault, anything longer overruns the buffer it is read into. */
  lemma CursorReads(d: Disk, agora: Bytes32, n: nat)
    requires n < U64
    ensures LoadCursor(d, agora) == Ok(Some(n)) <==> (agora, EpochCursor) in d.slots && d.slots[(agora, EpochCursor)] == U64Bytes(n)
    ensures LoadCursor(d, agora) == Ok(None) <==> (agora, EpochCursor) !in d.slots
    ensures LoadCursor(d, agora) == Err(Unavailable) <==> (agora, EpochCursor) in d.slots && |d.slots[(agora, EpochCursor)]| < 8
  {
    hide LE, ToLE;
    U64RoundTrip(n);
    if (agora, EpochCursor) in d.slots && |d.slots[(agora, EpochCursor)]| == 8 {
      U64Decoded(d.slots[(agora, EpochCursor)]);
    }
  }

  /** A discard succeeds exactly with no cursor, or a readable one no later than the epoch and at most
      a hundred thousand epochs before it. */
  lemma DiscardAnswer(d: Disk, agora: Bytes32, to: nat)
    ensures DiscardExpired(d, agora, to).1.Ok? <==>
              LoadCursor(d, agora).Ok? && (LoadCursor(d, agora).value.Some? ==>
                LoadCursor(d, agora).value.value <= to <= LoadCursor(d, agora).value.value + 100_000)
  {
    hide LoadCursor, Swept;
  }

  /** A roll succeeds exactly when a discard would, the record's buffer holds the key and both
      prefixes, the root signs, and none of its three writes fails. */
  lemma RollAnswer(c: Scheme, d: Disk, agora: Bytes32, current: nat, entropy: Bytes32, room: nat, signed: Result<seq<byte>>)
    requires PublicKey(c, MintSigningSecret(entropy)).Some?
    ensures RollEpoch(c, d, agora, current, entropy, room, signed).1.Ok? <==>
              DiscardExpired(d, agora, current).1.Ok? && room >= 48 && signed.Ok? && FirstFault(d.faults, 3) == 3
  {
    hide LoadCursor, Swept, PublicKey, EpochRecord, MintSigningSecret;
    DiscardKeepsFaults(d, agora, current);
    var f1 := Later(d.faults);
    assert FirstFault(d.faults, 3) == if WriteFails(d) then 0 else 1 + FirstFault(f1, 2);
    assert FirstFault(f1, 2) == if |f1| > 0 && f1[0] then 0 else 1 + FirstFault(Later(f1), 1);
  }

  /** After a successful roll to an epoch no older key or certificate remains, if and only if
      the cursor's range covered all that were stored. */
  lemma RollLeavesUnreached(c: Scheme, d: Disk, agora: Bytes32, current: nat, entropy: Bytes32, room: nat, signed: Result<seq<byte>>)
    requires PublicKey(c, MintSigningSecret(entropy)).Some?
    requires RollEpoch(c, d, agora, current, entropy, room, signed).1.Ok?
    ensures StaleSlots(RollEpoch(c, d, agora, current, entropy, room, signed).0, agora, current)
         == UnreachedSlots(d, agora, LoadCursor(d, agora).value, current)
  {
    hide RollEpoch, DiscardExpired, LoadCursor, PublicKey, EpochRecord, MintSigningSecret;
    RollValue(c, d, agora, current, entropy, room, signed);
    DiscardLeavesUnreached(d, agora, current);
    var swept, after := DiscardExpired(d, agora, current).0, RollEpoch(c, d, agora, current, entropy, room, signed).0;
    assert StaleSlots(after, agora, current) == StaleSlots(swept, agora, current);
  }

  // ---- Nothing acting left behind ----

  /** What lets a device act or listen: its inbox secret, any epoch key or certificate, and
      the cursor. */
  predicate Acting(a: Address, agora: Bytes32) {
    a.0 == agora && (EpochSlot(a.1) || a.1 == InboxKey || a.1 == EpochCursor)
  }

  function ActingSlots(d: Disk, agora: Bytes32): set<Address> {
    set a | a in d.slots && Acting(a, agora)
  }

  /** The stored epoch slots away from the cursor's own epoch. */
  function StraySlots(d: Disk, agora: Bytes32, cursor: Option<nat>): set<Address> {
    set a | a in d.slots && a.0 == agora && EpochSlot(a.1) && (cursor.None? || a.1.epoch != cursor.value)
  }

  /** Authorizing a migration leaves exactly the strays: nothing acting remains if and only if
      every stored epoch key and certificate was the cursor's. */
  lemma AuthorizeLeavesStrays(d: Disk, agora: Bytes32, keyRoom: nat, cert: Result<seq<byte>>, retire: Result<seq<byte>>, outRoom: nat)
    requires AuthorizeMigration(d, agora, keyRoom, cert, retire, outRoom).1.Ok?
    ensures LoadCursor(d, agora).Ok?
    ensures ActingSlots(AuthorizeMigration(d, agora, keyRoom, cert, retire, outRoom).0, agora)
         == StraySlots(d, agora, LoadCursor(d, agora).value)
  {
    hide HandoffOf, EncodedLen, Encoded, LoadCursor;
    CursorSurvives(d, agora);
    DestroyedValue(d, agora);
  }

  /** An authorization succeeds exactly when the device holds a whole credential it can read, its root
      makes both signatures, the caller's buffers have room and the cursor is readable; and what it
      then writes is that credential's own key, opening and root with both certificates. */
  lemma AuthorizeAnswer(d: Disk, agora: Bytes32, keyRoom: nat, cert: Result<seq<byte>>, retire: Result<seq<byte>>, outRoom: nat)
    ensures var r := AuthorizeMigration(d, agora, keyRoom, cert, retire, outRoom).1;
            && (r.Ok? <==>
                  && LoadSecret(d, agora, CredentialKey).Ok? && LoadSecret(d, agora, RootOpening).Ok? && LoadSecret(d, agora, InboxKey).Ok?
                  && (agora, RootPublicKey) in d.slots && |d.slots[(agora, RootPublicKey)]| <= keyRoom
                  && cert.Ok? && retire.Ok?
                  && 121 + |d.slots[(agora, RootPublicKey)]| + |cert.value| + |retire.value| <= outRoom
                  && LoadCursor(d, agora).Ok?)
            && (r.Ok? ==>
                  r.value == Encoded(Handoff(agora, LoadSecret(d, agora, CredentialKey).value, LoadSecret(d, agora, RootOpening).value,
                                             d.slots[(agora, RootPublicKey)], cert.value, retire.value)))
  {
    hide LoadSecret, LoadCursor, Encoded, Swept;
    CursorSurvives(d, agora);
  }

  /** An authorization that leaves a key able to act: the last roll stored its key and certificate
      but could not move the cursor, which still names the epoch before. */
  lemma AuthorizationMissesKey(c: Scheme, d: Disk, agora: Bytes32, n: nat, m: nat, entropy: Bytes32, room: nat, signed: Result<seq<byte>>,
                               keyRoom: nat, cert: Result<seq<byte>>, retire: Result<seq<byte>>, outRoom: nat)
    requires PublicKey(c, MintSigningSecret(entropy)).Some?
    requires LoadCursor(d, agora) == Ok(Some(n)) && n < m <= n + MAX_EPOCH_GAP
    requires d.faults == [false, false, true] && room >= 48 && signed.Ok?
    requires var rolled := RollEpoch(c, d, agora, m, entropy, room, signed).0;
             AuthorizeMigration(rolled, agora, keyRoom, cert, retire, outRoom).1.Ok?
    ensures var rolled := RollEpoch(c, d, agora, m, entropy, room, signed).0;
            && RollEpoch(c, d, agora, m, entropy, room, signed).1.Err?
            && (agora, EpochKey(m)) in ActingSlots(AuthorizeMigration(rolled, agora, keyRoom, cert, retire, outRoom).0, agora)
  {
    hide HandoffOf, EncodedLen, Encoded, PublicKey, EpochRecord, MintSigningSecret, AuthorizeMigration, LoadCursor, ActingSlots;
    CursorLags(c, d, agora, n, m, entropy, room, signed);
    AuthorizeLeavesStrays(RollEpoch(c, d, agora, m, entropy, room, signed).0, agora, keyRoom, cert, retire, outRoom);
  }

  /** A roll whose cursor write fails stores a key the cursor does not reach. */
  lemma CursorLags(c: Scheme, d: Disk, agora: Bytes32, n: nat, m: nat, entropy: Bytes32, room: nat, signed: Result<seq<byte>>)
    requires PublicKey(c, MintSigningSecret(entropy)).Some?
    requires LoadCursor(d, agora) == Ok(Some(n)) && n < m <= n + MAX_EPOCH_GAP
    requires d.faults == [false, false, true] && room >= 48 && signed.Ok?
    ensures RollEpoch(c, d, agora, m, entropy, room, signed).1.Err?
    ensures (agora, EpochKey(m)) in RollEpoch(c, d, agora, m, entropy, room, signed).0.slots
    ensures LoadCursor(RollEpoch(c, d, agora, m, entropy, room, signed).0, agora) == Ok(Some(n))
  {
    hide PublicKey, EpochRecord, MintSigningSecret, LE, U64Bytes;
  }

  lemma CursorSurvives(d: Disk, agora: Bytes32)
    ensures LoadCursor(Deleted(d, agora, InboxKey), agora) == LoadCursor(d, agora)
  {
  }

  lemma DestroyedValue(d: Disk, agora: Bytes32)
    requires ActingDestroyed(d, agora).1.Ok?
    ensures LoadCursor(d, agora).Ok?
    ensures ActingSlots(ActingDestroyed(d, agora).0, agora) == StraySlots(d, agora, LoadCursor(d, agora).value)
  {
    CursorSurvives(d, agora);
    var cursor := LoadCursor(d, agora);
    if cursor.Ok? && cursor.value.None? {
      assert (agora, EpochCursor) !in d.slots;
    }
  }

  /** A refused authorization destroys nothing. */
  lemma RefusedAuthorizationKeeps(d: Disk, agora: Bytes32, keyRoom: nat, cert: Result<seq<byte>>, retire: Result<seq<byte>>, outRoom: nat)
    requires cert.Err? || retire.Err? || HandoffOf(d, agora, keyRoom, cert, retire).Err?
          || EncodedLen(HandoffOf(d, agora, keyRoom, cert, retire).value) > outRoom
    ensures AuthorizeMigration(d, agora, keyRoom, cert, retire, outRoom).0 == d
    ensures AuthorizeMigration(d, agora, keyRoom, cert, retire, outRoom).1.Err?
  {
  }

  // ---- Runs of the lifecycle ----

  datatype Operation =
    | Creating(root: Result<seq<byte>>, entropy: CredentialEntropy)
    | Rolling(current: nat, epochEntropy: Bytes32, room: nat, signed: Result<seq<byte>>)
    | Discarding(upTo: nat)
    | Authorizing(keyRoom: nat, cert: Result<seq<byte>>, retire: Result<seq<byte>>, outRoom: nat)
    | Completing(handoff: Handoff, rootPublicKey: seq<byte>, opening: Bytes32, inboxEntropy: Bytes32)

  /** A roll mints a canonical key, for an epoch a u64 can name. */
  predicate Runnable(c: Scheme, op: Operation) {
    op.Rolling? ==> PublicKey(c, MintSigningSecret(op.epochEntropy)).Some? && op.current < U64
  }

  function After(c: Scheme, d: Disk, agora: Bytes32, op: Operation): Disk
    requires Runnable(c, op)
  {
    match op
    case Creating(root, entropy) => Create(c, d, agora, root, entropy).0
    case Rolling(current, entropy, room, signed) => RollEpoch(c, d, agora, current, entropy, room, signed).0
    case Discarding(upTo) => DiscardExpired(d, agora, upTo).0
    case Authorizing(keyRoom, cert, retire, outRoom) => AuthorizeMigration(d, agora, keyRoom, cert, retire, outRoom).0
    case Completing(h, key, opening, entropy) => CompleteMigration(c, d, agora, h, key, opening, entropy).0
  }

  /** Every stored epoch key and certificate of the agora belongs to the cursor's epoch. */
  predicate AtCursor(d: Disk, agora: Bytes32) {
    LoadCursor(d, agora).Ok? && StraySlots(d, agora, LoadCursor(d, agora).value) == {}
  }

  /** A roll got as far as writing the cursor, and that write failed. */
  predicate CursorWriteFailed(d: Disk, agora: Bytes32, op: Operation) {
    && op.Rolling?
    && RollChecked(d, agora, op.current, op.room, op.signed).Ok?
    && |d.faults| > 2 && !d.faults[0] && !d.faults[1] && d.faults[2]
  }

  lemma CursorValue(d: Disk, agora: Bytes32, n: nat)
    requires n < U64 && (agora, EpochCursor) in d.slots && d.slots[(agora, EpochCursor)] == U64Bytes(n)
    ensures LoadCursor(d, agora) == Ok(Some(n))
  {
    U64RoundTrip(n);
  }

  lemma DiscardKeepsAtCursor(d: Disk, agora: Bytes32, upTo: nat)
    requires AtCursor(d, agora)
    ensures AtCursor(DiscardExpired(d, agora, upTo).0, agora)
    ensures LoadCursor(DiscardExpired(d, agora, upTo).0, agora) == LoadCursor(d, agora)
    ensures DiscardExpired(d, agora, upTo).1.Ok? ==>
              StaleSlots(DiscardExpired(d, agora, upTo).0, agora, upTo) == {}
  {
    var d', cursor := DiscardExpired(d, agora, upTo).0, LoadCursor(d, agora).value;
    assert LoadCursor(d', agora) == LoadCursor(d, agora);
    assert StraySlots(d', agora, cursor) <= StraySlots(d, agora, cursor);
    if DiscardExpired(d, agora, upTo).1.Ok? {
      DiscardLeavesUnreached(d, agora, upTo);
      assert UnreachedSlots(d, agora, cursor, upTo) <= StraySlots(d, agora, cursor);
    }
  }

  /** Every epoch slot of a kept store that lies past an epoch lies at the cursor. */
  lemma RollKeepsAtCursor(c: Scheme, d: Disk, agora: Bytes32, current: nat, entropy: Bytes32, room: nat, signed: Result<seq<byte>>)
    requires PublicKey(c, MintSigningSecret(entropy)).Some? && current < U64
    requires AtCursor(d, agora) && !CursorWriteFailed(d, agora, Rolling(current, entropy, room, signed))
    ensures AtCursor(RollEpoch(c, d, agora, current, entropy, room, signed).0, agora)
  {
    hide PublicKey, EpochRecord, MintSigningSecret, DiscardExpired, LoadCursor, RollChecked;
    DiscardKeepsAtCursor(d, agora, current);
    var d1 := DiscardExpired(d, agora, current).0;
    var d' := RollEpoch(c, d, agora, current, entropy, room, signed).0;
    RollOutcomes(c, d, agora, current, entropy, room, signed);
    if d'.slots == d1.slots {
      SameSlots(d1, d', agora);
    } else if d'.slots == d1.slots - {(agora, EpochKey(current))} {
      FewerSlots(d1, d', agora, current);
    } else if d' != d {
      CursorValue(d', agora, current);
      NothingPast(d, agora, current);
      assert StraySlots(d', agora, Some(current)) <= StaleSlots(d1, agora, current) + PastSlots(d1, agora, current);
    }
  }

  function PastSlots(d: Disk, agora: Bytes32, epoch: nat): set<Address> {
    set a | a in d.slots && a.0 == agora && EpochSlot(a.1) && a.1.epoch > epoch
  }

  lemma NothingPast(d: Disk, agora: Bytes32, current: nat)
    requires AtCursor(d, agora) && DiscardExpired(d, agora, current).1.Ok?
    ensures PastSlots(DiscardExpired(d, agora, current).0, agora, current) == {}
  {
    var d1 := DiscardExpired(d, agora, current).0;
    assert PastSlots(d1, agora, current) <= StraySlots(d, agora, LoadCursor(d, agora).value);
  }

  lemma SameSlots(d: Disk, d': Disk, agora: Bytes32)
    requires AtCursor(d, agora) && d'.slots == d.slots
    ensures AtCursor(d', agora)
  {
  }

  lemma FewerSlots(d: Disk, d': Disk, agora: Bytes32, epoch: nat)
    requires AtCursor(d, agora) && d'.slots == d.slots - {(agora, EpochKey(epoch))}
    ensures AtCursor(d', agora)
  {
    assert LoadCursor(d', agora) == LoadCursor(d, agora);
    var cursor := LoadCursor(d, agora).value;
    assert StraySlots(d', agora, cursor) <= StraySlots(d, agora, cursor);
  }

  /** The ways a roll can end, when its cursor write is not the one that fails. */
  lemma RollOutcomes(c: Scheme, d: Disk, agora: Bytes32, current: nat, entropy: Bytes32, room: nat, signed: Result<seq<byte>>)
    requires PublicKey(c, MintSigningSecret(entropy)).Some?
    requires !CursorWriteFailed(d, agora, Rolling(current, entropy, room, signed))
    ensures var d' := RollEpoch(c, d, agora, current, entropy, room, signed).0;
            var d1 := DiscardExpired(d, agora, current).0;
            || d' == d
            || d'.slots == d1.slots
            || d'.slots == d1.slots - {(agora, EpochKey(current))}
            || (DiscardExpired(d, agora, current).1.Ok?
                && d'.slots == d1.slots[(agora, EpochKey(current)) := MintSigningSecret(entropy)]
                                       [(agora, EpochCert(current)) := EpochRecord(PublicKey(c, MintSigningSecret(entropy)).value, signed.value)]
                                       [(agora, EpochCursor) := U64Bytes(current)])
  {
    hide PublicKey, EpochRecord, MintSigningSecret, LoadCursor;
    SignedIsChecked(d, agora, current, room, signed);
    DiscardKeepsFaults(d, agora, current);
  }

  lemma DiscardKeepsFaults(d: Disk, agora: Bytes32, upTo: nat)
    ensures DiscardExpired(d, agora, upTo).0.faults == d.faults
  {
  }

  lemma SignedIsChecked(d: Disk, agora: Bytes32, current: nat, room: nat, signed: Result<seq<byte>>)
    ensures RollChecked(d, agora, current, room, signed).Ok? ==> signed == RollChecked(d, agora, current, room, signed)
  {
  }

  lemma MaterialKeepsEpochs(d: Disk, agora: Bytes32, m: Material)
    requires AtCursor(d, agora)
    ensures AtCursor(MaterialStored(d, agora, m).0, agora)
  {
    var d' := MaterialStored(d, agora, m).0;
    assert LoadCursor(d', agora) == LoadCursor(d, agora);
    var cursor := LoadCursor(d, agora).value;
    assert StraySlots(d', agora, cursor) == StraySlots(d, agora, cursor);
  }

  lemma AuthorizeKeepsAtCursor(d: Disk, agora: Bytes32, keyRoom: nat, cert: Result<seq<byte>>, retire: Result<seq<byte>>, outRoom: nat)
    requires AtCursor(d, agora)
    ensures AtCursor(AuthorizeMigration(d, agora, keyRoom, cert, retire, outRoom).0, agora)
  {
    hide HandoffOf, EncodedLen, Encoded;
    var d' := AuthorizeMigration(d, agora, keyRoom, cert, retire, outRoom).0;
    if d' != d {
      DestroyKeepsAtCursor(d, agora);
    }
  }

  lemma DestroyKeepsAtCursor(d: Disk, agora: Bytes32)
    requires AtCursor(d, agora)
    ensures AtCursor(ActingDestroyed(d, agora).0, agora)
  {
    CursorSurvives(d, agora);
    var d', cursor := ActingDestroyed(d, agora).0, LoadCursor(d, agora).value;
    if cursor.None? {
      assert StraySlots(d', agora, None) <= StraySlots(d, agora, None);
    } else {
      assert StraySlots(d', agora, None) <= StraySlots(d, agora, cursor);
    }
  }

  lemma OperationKeepsAtCursor(c: Scheme, d: Disk, agora: Bytes32, op: Operation)
    requires Runnable(c, op) && AtCursor(d, agora) && !CursorWriteFailed(d, agora, op)
    ensures AtCursor(After(c, d, agora, op), agora)
  {
    hide AtCursor, RollEpoch, DiscardExpired, AuthorizeMigration, MaterialStored, Commit;
    match op {
      case Creating(root, entropy) =>
        if root.Ok? {
          MaterialKeepsEpochs(d, agora, Minted(entropy, root.value));
        }
      case Rolling(current, entropy, room, signed) => RollKeepsAtCursor(c, d, agora, current, entropy, room, signed);
      case Discarding(upTo) => DiscardKeepsAtCursor(d, agora, upTo);
      case Authorizing(keyRoom, cert, retire, outRoom) => AuthorizeKeepsAtCursor(d, agora, keyRoom, cert, retire, outRoom);
      case Completing(h, key, opening, entropy) => MaterialKeepsEpochs(d, agora, SuccessorMaterial(h, key, opening, entropy));
    }
  }

  /** A device's history: operations on its agora, in order. */
  function Lifetime(c: Scheme, d: Disk, agora: Bytes32, ops: seq<Operation>): Disk
    requires forall i :: 0 <= i < |ops| ==> Runnable(c, ops[i])
  {
    if |ops| == 0 then d else After(c, Lifetime(c, d, agora, ops[..|ops| - 1]), agora, ops[|ops| - 1])
  }

  ghost predicate CursorsWritten(c: Scheme, d: Disk, agora: Bytes32, ops: seq<Operation>)
    requires forall i :: 0 <= i < |ops| ==> Runnable(c, ops[i])
  {
    |ops| > 0 ==>
      && CursorsWritten(c, d, agora, ops[..|ops| - 1])
      && !CursorWriteFailed(Lifetime(c, d, agora, ops[..|ops| - 1]), agora, ops[|ops| - 1])
  }

  /** Over any history in which no cursor write fails, whatever else does, every stored epoch key
      and certificate is at the cursor. */
  lemma {:induction false} LifetimeAtCursor(c: Scheme, d: Disk, agora: Bytes32, ops: seq<Operation>)
    requires forall i :: 0 <= i < |ops| ==> Runnable(c, ops[i])
    requires AtCursor(d, agora) && CursorsWritten(c, d, agora, ops)
    ensures AtCursor(Lifetime(c, d, agora, ops), agora)
  {
    hide AtCursor, After, CursorWriteFailed, Runnable;
    if |ops| > 0 {
      LifetimeAtCursor(c, d, agora, ops[..|ops| - 1]);
      OperationKeepsAtCursor(c, Lifetime(c, d, agora, ops[..|ops| - 1]), agora, ops[|ops| - 1]);
    }
  }

  /** So in every such history a successful discard or roll to an epoch leaves no older key or
      certificate, and a successful authorization leaves nothing that acts. */
  lemma NothingOutlives(c: Scheme, d: Disk, agora: Bytes32, ops: seq<Operation>, op: Operation)
    requires (forall i :: 0 <= i < |ops| ==> Runnable(c, ops[i])) && Runnable(c, op)
    requires AtCursor(d, agora) && CursorsWritten(c, d, agora, ops)
    ensures var before := Lifetime(c, d, agora, ops);
            match op
            case Rolling(current, entropy, room, signed) =>
              RollEpoch(c, before, agora, current, entropy, room, signed).1.Ok? ==>
                StaleSlots(After(c, before, agora, op), agora, current) == {}
            case Discarding(upTo) =>
              DiscardExpired(before, agora, upTo).1.Ok? ==> StaleSlots(After(c, before, agora, op), agora, upTo) == {}
            case Authorizing(keyRoom, cert, retire, outRoom) =>
              AuthorizeMigration(before, agora, keyRoom, cert, retire, outRoom).1.Ok? ==>
                ActingSlots(After(c, before, agora, op), agora) == {}
            case _ => AtCursor(After(c, before, agora, op), agora)
  {
    hide RollEpoch, DiscardExpired, AuthorizeMigration, Create, CompleteMigration, StaleSlots, ActingSlots, CursorWriteFailed;
    LifetimeAtCursor(c, d, agora, ops);
    var before := Lifetime(c, d, agora, ops);
    match op {
      case Rolling(current, entropy, room, signed) =>
        if RollEpoch(c, before, agora, current, entropy, room, signed).1.Ok? {
          RollLeavesUnreached(c, before, agora, current, entropy, room, signed);
          UnreachedAreStray(before, agora, current);
        }
      case Discarding(upTo) =>
        DiscardKeepsAtCursor(before, agora, upTo);
      case Authorizing(keyRoom, cert, retire, outRoom) =>
        if AuthorizeMigration(before, agora, keyRoom, cert, retire, outRoom).1.Ok? {
          AuthorizeLeavesStrays(before, agora, keyRoom, cert, retire, outRoom);
        }
      case _ =>
        NotRolling(before, agora, op);
        OperationKeepsAtCursor(c, before, agora, op);
    }
  }

  lemma NotRolling(d: Disk, agora: Bytes32, op: Operation)
    requires !op.Rolling?
    ensures !CursorWriteFailed(d, agora, op)
  {
  }

  lemma UnreachedAreStray(d: Disk, agora: Bytes32, to: nat)
    requires AtCursor(d, agora)
    ensures UnreachedSlots(d, agora, LoadCursor(d, agora).value, to) == {}
  {
    var cursor := LoadCursor(d, agora).value;
    assert UnreachedSlots(d, agora, cursor, to) <= StraySlots(d, agora, cursor);
  }

  // ---- What the condition is for ----

  /** If the first cursor write ever fails, the key stored just before it survives the next
      successful roll: nothing names its epoch. */
  lemma FirstCursorWriteLost(c: Scheme, d: Disk, agora: Bytes32, n: nat, m: nat, entropy: Bytes32, entropy': Bytes32,
                             signature: seq<byte>, signature': seq<byte>)
    requires PublicKey(c, MintSigningSecret(entropy)).Some? && PublicKey(c, MintSigningSecret(entropy')).Some?
    requires n < m && (agora, EpochCursor) !in d.slots && d.faults == [false, false, true]
    ensures var (d1, r1) := RollEpoch(c, d, agora, n, entropy, 48, Ok(signature));
            var (d2, r2) := RollEpoch(c, d1, agora, m, entropy', 48, Ok(signature'));
            r1.Err? && r2.Ok? && (agora, EpochKey(n)) in StaleSlots(d2, agora, m)
  {
    hide PublicKey, EpochRecord, MintSigningSecret;
    var d1 := RollEpoch(c, d, agora, n, entropy, 48, Ok(signature)).0;
    assert d1.faults == [] && (agora, EpochKey(n)) in d1.slots && (agora, EpochCursor) !in d1.slots;
  }

  // ---- Agoras share nothing ----

  function Others(d: Disk, agora: Bytes32): map<Address, seq<byte>> {
    map a | a in d.slots && a.0 != agora :: d.slots[a]
  }

  lemma StoredOthers(d: Disk, agora: Bytes32, slot: Slot, value: seq<byte>)
    ensures Others(Stored(d, agora, slot, value).0, agora) == Others(d, agora)
    ensures Others(Deleted(d, agora, slot), agora) == Others(d, agora)
  {
  }

  lemma MaterialOthers(d: Disk, agora: Bytes32, m: Material)
    ensures Others(MaterialStored(d, agora, m).0, agora) == Others(d, agora)
  {
  }

  lemma DiscardOthers(d: Disk, agora: Bytes32, upTo: nat)
    ensures Others(DiscardExpired(d, agora, upTo).0, agora) == Others(d, agora)
  {
    hide LoadCursor;
  }

  lemma RollOthers(c: Scheme, d: Disk, agora: Bytes32, current: nat, entropy: Bytes32, room: nat, signed: Result<seq<byte>>)
    requires PublicKey(c, MintSigningSecret(entropy)).Some?
    ensures Others(RollEpoch(c, d, agora, current, entropy, room, signed).0, agora) == Others(d, agora)
  {
    hide DiscardExpired, RollChecked, PublicKey, EpochRecord, MintSigningSecret;
    DiscardOthers(d, agora, current);
  }

  lemma AuthorizeOthers(d: Disk, agora: Bytes32, keyRoom: nat, cert: Result<seq<byte>>, retire: Result<seq<byte>>, outRoom: nat)
    ensures Others(AuthorizeMigration(d, agora, keyRoom, cert, retire, outRoom).0, agora) == Others(d, agora)
  {
    hide DiscardExpired, HandoffOf, LoadCursor, EncodedLen, Encoded;
    hide Others;
    var d1 := Deleted(d, agora, InboxKey);
    StoredOthers(d, agora, InboxKey, []);
    if LoadCursor(d1, agora).Ok? && LoadCursor(d1, agora).value.Some? {
      var cursor := LoadCursor(d1, agora).value.value;
      var d2 := DiscardExpired(d1, agora, cursor).0;
      DiscardOthers(d1, agora, cursor);
      StoredOthers(d2, agora, EpochKey(cursor), []);
      StoredOthers(Deleted(d2, agora, EpochKey(cursor)), agora, EpochCert(cursor), []);
      StoredOthers(Deleted(Deleted(d2, agora, EpochKey(cursor)), agora, EpochCert(cursor)), agora, EpochCursor, []);
    }
  }

  /** No operation on one agora, under any failures, touches another agora's slots. */
  lemma OthersUntouched(c: Scheme, d: Disk, agora: Bytes32, op: Operation)
    requires Runnable(c, op)
    ensures Others(After(c, d, agora, op), agora) == Others(d, agora)
  {
    hide Others, RollEpoch, DiscardExpired, AuthorizeMigration, MaterialStored, Commit;
    match op {
      case Creating(root, entropy) =>
        if root.Ok? {
          MaterialOthers(d, agora, Minted(entropy, root.value));
        }
      case Rolling(current, entropy, room, signed) => RollOthers(c, d, agora, current, entropy, room, signed);
      case Discarding(upTo) => DiscardOthers(d, agora, upTo);
      case Authorizing(keyRoom, cert, retire, outRoom) => AuthorizeOthers(d, agora, keyRoom, cert, retire, outRoom);
      case Completing(h, key, opening, entropy) => MaterialOthers(d, agora, SuccessorMaterial(h, key, opening, entropy));
    }
  }
}