/** The encrypted cloud store of src/omp/cloud/encrypted_memory.py as a value, and what each of
    its operations does to it. Unlike the service store there is no rollback: an operation that
    raises may already have changed something, and the definitions say what. */
module CloudStore {
  import opened Domain
  import opened Envelope

  /** `mem_<uuid>` or, in a restored snapshot, any other text. */
  datatype MemId = Mem(uuid: Uuid) | Foreign(text: string)

  /** `cloud:<tenant>:<subject>` or an owner string that is not one. */
  datatype Owner = Cloud(tenant: Tenant, subject: nat) | Malformed(text: string)

  datatype CloudRecord = CloudRecord(
    id: MemId, owner: Owner, kind: string, space: Option<string>, importance: real, confidence: real,
    state: string, version: int, createdAt: Time, updatedAt: Time, content: Envelope, provenance: Envelope)

  datatype Embedding = Embedding(owner: Owner, sourceVersion: int, values: Vector)

  datatype OwnedId = OwnedId(owner: Owner, id: MemId)

  datatype CloudWriteKey = CloudWriteKey(owner: Owner, key: string)

  datatype CloudState = CloudState(
    keyVersion: int,
    records: map<MemId, CloudRecord>,
    writeKeys: map<CloudWriteKey, MemId>,
    forgetKeys: set<OwnedId>,
    tombstones: map<OwnedId, Time>,
    embeddings: map<MemId, Embedding>)

  function NewStore(keyVersion: int): CloudState {
    CloudState(keyVersion, map[], map[], {}, map[], map[])
  }

  /** The key service of the call, the clock, the identifier and the random keys it draws. */
  datatype CloudEnv =
    CloudEnv(kms: Kms, now: Time, freshId: Uuid, dek: (MemId, Field) -> nat, nonce: (MemId, Field) -> nat)

  function TenantOf(owner: Owner): Outcome<Tenant> {
    if owner.Cloud? then Done(owner.tenant) else Failed(Forbidden)
  }

  function UuidOf(id: MemId): Outcome<Uuid> {
    if id.Mem? then Done(id.uuid) else Failed(BadValue)
  }

  function FieldOf(r: CloudRecord, f: Field): Envelope {
    if f.ContentField? then r.content else r.provenance
  }

  function SetField(r: CloudRecord, f: Field, e: Envelope): CloudRecord {
    if f.ContentField? then r.(content := e) else r.(provenance := e)
  }

  /** A record with its two fields decrypted. */
  datatype Plain = Plain(record: CloudRecord, content: string, provenance: string)

  function Read(kms: Kms, r: CloudRecord): Outcome<Plain> {
    var tenant :- TenantOf(r.owner);
    var uuid :- UuidOf(r.id);
    var content :- Decrypt(kms, tenant, uuid, ContentField, r.content);
    var provenance :- Decrypt(kms, tenant, uuid, ProvenanceField, r.provenance);
    Done(Plain(r, content, provenance))
  }

  function Live(s: CloudState, owner: Owner, id: MemId): bool {
    id in s.records && s.records[id].owner == owner
  }

  function GetRecord(s: CloudState, kms: Kms, owner: Owner, id: MemId): Outcome<Option<Plain>> {
    var _ :- TenantOf(owner);
    if !Live(s, owner, id) then Done(None)
    else
      var plain :- Read(kms, s.records[id]);
      Done(Some(plain))
  }

  // ---------------------------------------------------------------- write and update

  datatype WritePayload = WritePayload(
    owner: Owner, key: string, kind: string, space: Option<string>, importance: real, confidence: real,
    content: string, provenance: string)

  function NewRecord(env: CloudEnv, p: WritePayload, keyVersion: int): Outcome<CloudRecord> {
    var tenant :- TenantOf(p.owner);
    var id := Mem(env.freshId);
    var content :- Encrypt(env.kms, tenant, env.freshId, ContentField, p.content, keyVersion,
        env.dek(id, ContentField), env.nonce(id, ContentField));
    var provenance :- Encrypt(env.kms, tenant, env.freshId, ProvenanceField, p.provenance, keyVersion,
        env.dek(id, ProvenanceField), env.nonce(id, ProvenanceField));
    Done(CloudRecord(id, p.owner, p.kind, p.space, p.importance, p.confidence, "active", 1, env.now, env.now,
        content, provenance))
  }

  /** The record is stored before it is read back, so a failing read leaves it stored. */
  function WriteOp(s: CloudState, env: CloudEnv, p: WritePayload): (CloudState, Outcome<Plain>) {
    var w := CloudWriteKey(p.owner, p.key);
    if TenantOf(p.owner).Failed? then (s, Failed(Forbidden))
    else if w in s.writeKeys then
      (s, if s.writeKeys[w] in s.records then Read(env.kms, s.records[s.writeKeys[w]]) else Failed(MissingKey))
    else
      match NewRecord(env, p, s.keyVersion)
      case Failed(error) => (s, Failed(error))
      case Done(r) => (s.(records := s.records[r.id := r], writeKeys := s.writeKeys[w := r.id]), Read(env.kms, r))
  }

  datatype Patch = Patch(content: Option<string>, kind: Option<string>, space: Option<string>,
                         importance: Option<real>, confidence: Option<real>, state: Option<string>)

  datatype UpdatePayload = UpdatePayload(owner: Owner, id: MemId, expectedVersion: int, patch: Patch)

  function PatchedContent(s: CloudState, env: CloudEnv, r: CloudRecord, content: Option<string>): Outcome<Envelope> {
    var uuid :- UuidOf(r.id);
    var tenant :- TenantOf(r.owner);
    if content.None? then Done(r.content)
    else Encrypt(env.kms, tenant, uuid, ContentField, content.value, s.keyVersion, env.dek(r.id, ContentField),
        env.nonce(r.id, ContentField))
  }

  function PatchedRecord(r: CloudRecord, content: Envelope, p: Patch, now: Time): CloudRecord {
    r.(content := content, kind := OrElse(p.kind, r.kind), space := if p.space.Some? then p.space else r.space,
       importance := OrElse(p.importance, r.importance), confidence := OrElse(p.confidence, r.confidence),
       state := OrElse(p.state, r.state), version := r.version + 1, updatedAt := now)
  }

  function UpdateOp(s: CloudState, env: CloudEnv, p: UpdatePayload): (CloudState, Outcome<Plain>) {
    if !Live(s, p.owner, p.id) then (s, Failed(MissingKey))
    else if s.records[p.id].version != p.expectedVersion then (s, Failed(BadValue))
    else
      match PatchedContent(s, env, s.records[p.id], p.patch.content)
      case Failed(error) => (s, Failed(error))
      case Done(content) =>
        var r := PatchedRecord(s.records[p.id], content, p.patch, env.now);
        (s.(records := s.records[p.id := r], embeddings := s.embeddings - {r.id}), Read(env.kms, r))
  }

  // ---------------------------------------------------------------- vectors

  predicate AcceptsVector(s: CloudState, owner: Owner, id: MemId, version: int) {
    Live(s, owner, id) && s.records[id].state == "active" && s.records[id].version == version
  }

  function StoreEmbeddingOp(s: CloudState, owner: Owner, id: MemId, version: int, values: Vector)
    : (CloudState, Outcome<bool>)
  {
    if TenantOf(owner).Failed? then (s, Failed(Forbidden))
    else if !AcceptsVector(s, owner, id, version) then (s, Done(false))
    else (s.(embeddings := s.embeddings[id := Embedding(owner, version, values)]), Done(true))
  }

  // ---------------------------------------------------------------- deletion

  /** `true`: forgotten. `false`: already absent, which is also the answer whenever this owner and
      id were asked for before. The write key stays behind. */
  function ForgetOp(s: CloudState, now: Time, owner: Owner, id: MemId): (CloudState, bool) {
    var key := OwnedId(owner, id);
    if key in s.forgetKeys then (s, false)
    else if !Live(s, owner, id) then (s.(forgetKeys := s.forgetKeys + {key}), false)
    else
      (s.(forgetKeys := s.forgetKeys + {key}, tombstones := s.tombstones[key := now], records := s.records - {id},
          embeddings := s.embeddings - {id}), true)
  }

  function Owned(s: CloudState, owner: Owner): set<MemId> {
    set id | id in s.records && s.records[id].owner == owner
  }

  function OwnedKeys(owner: Owner, ids: set<MemId>): set<OwnedId> {
    set id | id in ids :: OwnedId(owner, id)
  }

  /** Buries the given records of one owner. */
  function BuryOwned(s: CloudState, now: Time, owner: Owner, ids: set<MemId>): CloudState {
    s.(forgetKeys := s.forgetKeys + OwnedKeys(owner, ids),
       tombstones := s.tombstones + (map k | k in OwnedKeys(owner, ids) :: now),
       records := s.records - ids,
       embeddings := s.embeddings - ids)
  }

  function DeleteOwnerOp(s: CloudState, now: Time, owner: Owner): (CloudState, Outcome<nat>) {
    if TenantOf(owner).Failed? then (s, Failed(Forbidden))
    else
      (BuryOwned(s, now, owner, Owned(s, owner)).(
         writeKeys := map w | w in s.writeKeys && w.owner != owner :: s.writeKeys[w]),
       Done(|Owned(s, owner)|))
  }

  // ---------------------------------------------------------------- backup and restore

  /** A record of a snapshot may be broken in ways that matter only in that they are rejected. */
  datatype RawRecord = Whole(record: CloudRecord) | Broken

  datatype LedgerEntry = LedgerEntry(owner: Owner, id: MemId, deletedAt: Time) | BrokenEntry

  /** A snapshot lists the deletion ledger of its store, which restore itself does not read. */
  datatype Snapshot = Snapshot(formatKnown: bool, records: Option<map<MemId, RawRecord>>, ledger: seq<LedgerEntry>)

  function KeyOfEntry(e: LedgerEntry): OwnedId
    requires e.LedgerEntry?
  {
    OwnedId(e.owner, e.id)
  }

  /** One entry per tombstone. */
  ghost predicate ListsLedger(entries: seq<LedgerEntry>, tombstones: map<OwnedId, Time>) {
    && (forall i :: 0 <= i < |entries| ==>
          entries[i].LedgerEntry? && KeyOfEntry(entries[i]) in tombstones
              && tombstones[KeyOfEntry(entries[i])] == entries[i].deletedAt)
    && (forall i, j :: 0 <= i < j < |entries| ==> KeyOfEntry(entries[i]) != KeyOfEntry(entries[j]))
    && (forall k :: k in tombstones ==> exists i :: 0 <= i < |entries| && KeyOfEntry(entries[i]) == k)
  }

  function WholeRecords(records: map<MemId, CloudRecord>): map<MemId, RawRecord> {
    map id | id in records :: Whole(records[id])
  }

  /** What `backup` returns. */
  ghost predicate IsBackup(s: CloudState, snapshot: Snapshot) {
    snapshot.formatKnown && snapshot.records == Some(WholeRecords(s.records))
        && ListsLedger(snapshot.ledger, s.tombstones)
  }

  predicate ValidEntry(e: LedgerEntry) {
    e.LedgerEntry? && e.owner.Cloud?
  }

  /** Entries are taken in one by one until the first invalid one. */
  function Ledger(tombstones: map<OwnedId, Time>, entries: seq<LedgerEntry>): map<OwnedId, Time>
    decreases |entries|
  {
    if entries == [] then tombstones
    else
      var before := Ledger(tombstones, entries[..|entries| - 1]);
      var last := entries[|entries| - 1];
      if ValidEntries(entries) then before[OwnedId(last.owner, last.id) := last.deletedAt] else before
  }

  predicate ValidEntries(entries: seq<LedgerEntry>) {
    forall i :: 0 <= i < |entries| ==> ValidEntry(entries[i])
  }

  predicate ValidRaw(id: MemId, r: RawRecord) {
    r.Whole? && r.record.owner.Cloud? && r.record.id == id
  }

  predicate ValidSnapshot(m: map<MemId, RawRecord>) {
    forall id :: id in m ==> ValidRaw(id, m[id])
  }

  predicate ValidLedger(tombstones: map<OwnedId, Time>) {
    forall k :: k in tombstones ==> k.owner.Cloud?
  }

  /** What the snapshot brings back once the ledger is applied. */
  function Surviving(m: map<MemId, RawRecord>, tombstones: map<OwnedId, Time>): map<MemId, CloudRecord>
    requires ValidSnapshot(m)
  {
    map id | id in m && OwnedId(m[id].record.owner, id) !in tombstones :: m[id].record
  }

  predicate BoundVector(records: map<MemId, CloudRecord>, id: MemId, e: Embedding) {
    id in records && e.owner == records[id].owner && e.sourceVersion == records[id].version
  }

  function KeepVectors(embeddings: map<MemId, Embedding>, records: map<MemId, CloudRecord>): map<MemId, Embedding> {
    map id | id in embeddings && BoundVector(records, id, embeddings[id]) :: embeddings[id]
  }

  function KeepKeys(keys: map<CloudWriteKey, MemId>, records: map<MemId, CloudRecord>): map<CloudWriteKey, MemId> {
    map w | w in keys && keys[w] in records && records[keys[w]].owner == w.owner :: keys[w]
  }

  /** The ledger is extended before the snapshot's records are validated; a rejected snapshot
      therefore still leaves its accepted ledger entries behind. */
  function RestoreOp(s: CloudState, snapshot: Snapshot, entries: seq<LedgerEntry>): (CloudState, Outcome<nat>) {
    if !snapshot.formatKnown || snapshot.records.None? then (s, Failed(BadValue))
    else if !ValidLedger(s.tombstones) then (s, Failed(Forbidden))
    else
      var t := s.(tombstones := Ledger(s.tombstones, entries));
      if !ValidEntries(entries) || !ValidSnapshot(snapshot.records.value) then (t, Failed(BadValue))
      else
        var records := Surviving(snapshot.records.value, t.tombstones);
        (t.(records := records, embeddings := KeepVectors(s.embeddings, records),
            writeKeys := KeepKeys(s.writeKeys, records)),
         Done(|records|))
  }

  // ---------------------------------------------------------------- key rotation

  function RotateOp(s: CloudState, version: int): (CloudState, Outcome<()>) {
    if version < 1 || version < s.keyVersion then (s, Failed(BadValue)) else (s.(keyVersion := version), Done(()))
  }

  function RewrapField(env: CloudEnv, r: CloudRecord, f: Field, version: int): Outcome<Envelope> {
    if FieldOf(r, f).keyVersion == version then Done(FieldOf(r, f))
    else
      var tenant :- TenantOf(r.owner);
      var uuid :- UuidOf(r.id);
      Rewrap(env.kms, tenant, uuid, f, FieldOf(r, f), version, env.dek(r.id, f), env.nonce(r.id, f))
  }

  /** A record whose owner and id parse and both of whose fields can be moved to `version`. */
  function RewrapRecord(env: CloudEnv, r: CloudRecord, version: int): Outcome<CloudRecord> {
    var _ :- TenantOf(r.owner);
    var _ :- UuidOf(r.id);
    var content :- RewrapField(env, r, ContentField, version);
    var provenance :- RewrapField(env, r, ProvenanceField, version);
    Done(r.(content := content, provenance := provenance))
  }

  predicate Rewrappable(s: CloudState, env: CloudEnv, version: int) {
    forall id :: id in s.records ==> RewrapRecord(env, s.records[id], version).Done?
  }

  datatype FieldRef = FieldRef(id: MemId, field: Field)

  function Outdated(s: CloudState, version: int): set<FieldRef> {
    (set id | id in s.records && s.records[id].content.keyVersion != version :: FieldRef(id, ContentField))
    + (set id | id in s.records && s.records[id].provenance.keyVersion != version :: FieldRef(id, ProvenanceField))
  }

  /** All fields or none: everything is rotated aside first, then put in place. */
  function RewrapOp(s: CloudState, env: CloudEnv, version: int): (CloudState, Outcome<nat>) {
    if version < 1 || version < s.keyVersion then (s, Failed(BadValue))
    else if !Rewrappable(s, env, version) then (s, Failed(Forbidden))
    else
      (s.(records := map id | id in s.records :: RewrapRecord(env, s.records[id], version).value,
          keyVersion := version),
       Done(|Outdated(s, version)|))
  }

  // ---------------------------------------------------------------- runs

  datatype CloudStep =
    | WriteStep(write: WritePayload)
    | UpdateStep(update: UpdatePayload)
    | EmbeddingStep(owner: Owner, id: MemId, version: int, values: Vector)
    | ForgetStep(owner: Owner, id: MemId)
    | DeleteOwnerStep(owner: Owner)
    | RestoreStep(snapshot: Snapshot, entries: seq<LedgerEntry>)
    | RotateStep(version: int)
    | RewrapStep(version: int)

  /** The state after one operation, whether it returned or raised. */
  function Next(s: CloudState, env: CloudEnv, step: CloudStep): CloudState {
    match step
    case WriteStep(p) => WriteOp(s, env, p).0
    case UpdateStep(p) => UpdateOp(s, env, p).0
    case EmbeddingStep(owner, id, version, values) => StoreEmbeddingOp(s, owner, id, version, values).0
    case ForgetStep(owner, id) => ForgetOp(s, env.now, owner, id).0
    case DeleteOwnerStep(owner) => DeleteOwnerOp(s, env.now, owner).0
    case RestoreStep(snapshot, entries) => RestoreOp(s, snapshot, entries).0
    case RotateStep(version) => RotateOp(s, version).0
    case RewrapStep(version) => RewrapOp(s, env, version).0
  }

  datatype CloudCall = CloudCall(env: CloudEnv, step: CloudStep)

  function Play(s: CloudState, calls: seq<CloudCall>): CloudState
    decreases |calls|
  {
    if calls == [] then s
    else Next(Play(s, calls[..|calls| - 1]), calls[|calls| - 1].env, calls[|calls| - 1].step)
  }

  /** Identifiers are never drawn twice, not even after their record was deleted. */
  ghost predicate UnusedId(s: CloudState, id: MemId) {
    id !in s.records && forall k :: k in s.tombstones ==> k.id != id
  }

  ghost predicate LegalCalls(s: CloudState, calls: seq<CloudCall>) {
    forall i :: 0 <= i < |calls| ==> UnusedId(Play(s, calls[..i]), Mem(calls[i].env.freshId))
  }
}
