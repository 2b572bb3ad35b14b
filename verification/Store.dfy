/** The transactional in-memory store of src/omp/application/fakes.py as a value, the commands
    of src/omp/application/services.py, and what each command decides and commits.

    A transaction reads the store, decides on at most one `Effect`, and commits it; an error
    commits nothing. `Service.dfy` proves that the step-by-step code, which mutates the store
    and rolls it back on error, computes exactly this. */
module MemoryStore {
  import opened Domain

  // ---------------------------------------------------------------- ledger

  datatype OperationType = UpdateOp | ForgetOp | ConfirmOp | PinOp | DiscardOp

  datatype OperationKey = OperationKey(owner: string, operation: OperationType, key: string)

  datatype OperationStatus = InProgress | Completed

  datatype Operation = Operation(
    fingerprint: Fingerprint, status: OperationStatus, memoryId: Option<Id>,
    resultVersion: Option<int>, resultStatus: Option<string>)

  datatype Entry = Entry(key: OperationKey, row: Operation)

  /** SHA-256 over the canonical form, idealised as injective: a digest is the canonical form
      itself. `Hex` is a digest that arrived as text in an import package. */
  datatype Fingerprint =
    | WriteDigest(content: string, memoryType: MemoryType, importance: real, confidence: real,
                  space: Option<string>, occurredAt: Option<Time>, provenance: Provenance)
    | CaptureDigest(tenant: string, connection: string, content: string, memoryType: MemoryType,
                    space: Option<string>, importance: real, confidence: real,
                    provenance: Provenance, consent: Consent)
    | ConfirmDigest(memoryId: Id, expectedVersion: int, newContent: Option<string>,
                    newType: Option<MemoryType>, space: Option<string>, reason: string)
    | PinDigest(memoryId: Id, expectedVersion: int, pinned: bool)
    | DiscardDigest(memoryId: Id, expectedVersion: int, reason: string)
    | UpdateDigest(command: UpdateCommand)
    | ForgetDigest(owner: string, memoryId: Id)
    | Hex(text: string)

  predicate ValidFingerprint(f: Fingerprint) {
    f.Hex? ==> |f.text| == 64 && forall i :: 0 <= i < |f.text| ==> f.text[i] in "0123456789abcdef"
  }

  // ---------------------------------------------------------------- store

  datatype WriteKey = WriteKey(owner: string, key: string)

  datatype RelationKey = RelationKey(owner: string, source: Id, target: Id, kind: RelationType)

  datatype Tombstone = Tombstone(owner: string, tenant: Option<string>, id: Id)

  datatype Store = Store(
    memories: map<Id, Memory>,
    vectors: map<Id, Vector>,
    fingerprints: map<WriteKey, Fingerprint>,
    history: map<Id, seq<MemoryVersion>>,
    relations: map<RelationKey, Relation>,
    operations: map<OperationKey, Operation>,
    tombstones: set<Tombstone>)

  const EMPTY := Store(map[], map[], map[], map[], map[], map[], {})

  function KeyOfRelation(r: Relation): RelationKey {
    RelationKey(r.owner, r.source, r.target, r.kind)
  }

  function Grave(m: Memory): Tombstone {
    Tombstone(m.owner, m.tenant, m.id)
  }

  predicate Visible(m: Memory, owner: string, tenant: Option<string>) {
    m.owner == owner && (tenant.None? || m.tenant == tenant)
  }

  function Get(s: Store, owner: string, id: Id, tenant: Option<string>): Option<Memory> {
    if id in s.memories && Visible(s.memories[id], owner, tenant) then Some(s.memories[id]) else None
  }

  function Found(o: Option<Memory>): Result<Memory> {
    if o.Some? then Ok(o.value) else Err(NotFound)
  }

  function FindVersion(h: seq<MemoryVersion>, version: int): Option<MemoryVersion> {
    if h == [] then None
    else if h[0].version == version then Some(h[0])
    else FindVersion(h[1..], version)
  }

  function HistoryOf(s: Store, id: Id): seq<MemoryVersion> {
    if id in s.history then s.history[id] else []
  }

  function GetVersion(s: Store, owner: string, id: Id, version: int, tenant: Option<string>): Result<Memory> {
    var current :- Found(Get(s, owner, id, tenant));
    if current.version == version then Ok(current)
    else
      var v := FindVersion(HistoryOf(s, id), version);
      if v.None? then Err(NotFound) else Rebuild(current, v.value)
  }

  /** Live memories of `owner` that were written under `key`. */
  ghost predicate Holds(m: Memory, w: WriteKey) {
    m.owner == w.owner && m.idempotencyKey == Some(w.key)
  }

  predicate HasHolder(s: Store, w: WriteKey) {
    exists id :: id in s.memories && s.memories[id].owner == w.owner && s.memories[id].idempotencyKey == Some(w.key)
  }

  // ---------------------------------------------------------------- commands

  datatype WriteCommand = WriteCommand(
    owner: string, content: string, memoryType: MemoryType, provenance: Provenance, importance: real,
    confidence: real, space: Option<string>, occurredAt: Option<Time>, key: Option<string>,
    tenant: Option<string>)

  datatype CaptureCommand = CaptureCommand(
    tenant: string, owner: string, connection: string, content: string, memoryType: MemoryType,
    space: Option<string>, provenance: Provenance, consent: Consent, key: string, importance: real,
    confidence: real, policy: string, revoked: bool, scopes: set<string>)

  datatype ConfirmCommand = ConfirmCommand(
    tenant: string, owner: string, memoryId: Id, expectedVersion: int, key: string,
    content: Option<string>, memoryType: Option<MemoryType>, space: Option<string>, reason: string,
    revoked: bool, scopes: set<string>)

  datatype PinCommand = PinCommand(
    tenant: string, owner: string, memoryId: Id, expectedVersion: int, pinned: bool, key: string,
    revoked: bool, scopes: set<string>)

  datatype DiscardCommand = DiscardCommand(
    tenant: string, owner: string, memoryId: Id, expectedVersion: int, key: string, reason: string,
    revoked: bool, scopes: set<string>)

  datatype UpdateCommand = UpdateCommand(
    owner: string, memoryId: Id, expectedVersion: int, content: Option<string>,
    memoryType: Option<MemoryType>, importance: Option<real>, confidence: Option<real>,
    state: Option<MemoryState>, occurredAt: Option<Time>, space: Option<string>,
    provenance: Option<Provenance>, supersedes: Option<Id>, contradicts: Option<Id>,
    reason: string, key: Option<string>)

  datatype ForgetCommand = ForgetCommand(owner: string, memoryId: Id, key: Option<string>, tenant: Option<string>)

  /** `kind` is `None` when the text names no relation type. */
  datatype RelateCommand = RelateCommand(owner: string, source: Id, target: Id, kind: Option<RelationType>)

  /** One record of an export or import package. */
  datatype Record = Record(
    memory: Memory, history: seq<MemoryVersion>, relations: seq<Relation>,
    embedding: Option<Vector>, fingerprint: Option<Fingerprint>)

  datatype Command =
    | Write(write: WriteCommand)
    | Capture(capture: CaptureCommand)
    | Confirm(confirm: ConfirmCommand)
    | Pin(pin: PinCommand)
    | Discard(discard: DiscardCommand)
    | Update(update: UpdateCommand)
    | Forget(forget: ForgetCommand)
    | Relate(relate: RelateCommand)
    | Import(owner: string, records: seq<Record>)

  /** What the world supplies to one call: the clock, the embedding provider (`None` when it
      raises) and the identifier `uuid4` would return. */
  datatype Provider = Provider(profile: Descriptor, embed: string -> Option<Vector>)

  datatype Env = Env(now: Time, provider: Provider, freshId: Id)

  datatype Reply =
    | Created(memory: Memory)
    | Existing                      // some live holder of the write key
    | Returned(memory: Memory)
    | Gone(id: Id, forgotten: bool)
    | Linked(relation: Relation)
    | ImportReport(imported: nat, replayed: nat)

  // ---------------------------------------------------------------- effects

  datatype Effect =
    | Nothing
    | Settle(entry: Entry)
    | Create(memory: Memory, fingerprint: Fingerprint, vector: Vector)
    | Advance(memory: Memory, reason: string, vector: Vector, link: Option<Relation>, settled: Option<Entry>)
    | Erase(id: Id, settled: Option<Entry>)
    | Link(relation: Relation)
    | Load(records: seq<Record>)

  function Post(operations: map<OperationKey, Operation>, e: Option<Entry>): map<OperationKey, Operation> {
    if e.Some? then operations[e.value.key := e.value.row] else operations
  }

  function Attach(relations: map<RelationKey, Relation>, r: Option<Relation>): map<RelationKey, Relation> {
    if r.Some? then relations[KeyOfRelation(r.value) := r.value] else relations
  }

  /** Fingerprints after a memory with write key `key` is stored. */
  function Register(fs: map<WriteKey, Fingerprint>, m: Memory, f: Fingerprint): map<WriteKey, Fingerprint> {
    if m.idempotencyKey.Some? then fs[WriteKey(m.owner, m.idempotencyKey.value) := f] else fs
  }

  function Unregister(fs: map<WriteKey, Fingerprint>, m: Memory): map<WriteKey, Fingerprint> {
    if m.idempotencyKey.Some? then fs - {WriteKey(m.owner, m.idempotencyKey.value)} else fs
  }

  predicate Touches(r: Relation, id: Id) {
    r.source == id || r.target == id
  }

  function Detach(relations: map<RelationKey, Relation>, id: Id): map<RelationKey, Relation> {
    map k | k in relations && !Touches(relations[k], id) :: relations[k]
  }

  function Bury(s: Store, id: Id): Store {
    if id !in s.memories then s
    else Store(s.memories - {id}, s.vectors - {id}, Unregister(s.fingerprints, s.memories[id]), s.history - {id},
          Detach(s.relations, id), s.operations,
               s.tombstones + {Tombstone(s.memories[id].owner, s.memories[id].tenant, id)})
  }

  /** One record of a package: nothing for a memory that is already there. */
  function LoadRecord(s: Store, r: Record): Store {
    if r.memory.id in s.memories then s
    else s.(memories := s.memories[r.memory.id := r.memory],
            vectors := s.vectors[r.memory.id := OrElse(r.embedding, [])],
            history := s.history[r.memory.id := r.history],
            fingerprints := Register(s.fingerprints, r.memory, OrElse(r.fingerprint, Hex(""))))
  }

  function LoadRecords(s: Store, records: seq<Record>): Store
    decreases |records|
  {
    if records == [] then s
    else
      var rest := records[..|records| - 1];
      LoadRecord(LoadRecords(s, rest), records[|records| - 1])
  }

  function LoadRelation(relations: map<RelationKey, Relation>, r: Relation): map<RelationKey, Relation> {
    if KeyOfRelation(r) in relations then relations else relations[KeyOfRelation(r) := r]
  }

  function LoadRelations(relations: map<RelationKey, Relation>, rs: seq<Relation>): map<RelationKey, Relation>
    decreases |rs|
  {
    if rs == [] then relations
    else LoadRelation(LoadRelations(relations, rs[..|rs| - 1]), rs[|rs| - 1])
  }

  /** All relations of a package in the order in which they are inserted. */
  function PackageRelations(records: seq<Record>): seq<Relation>
    decreases |records|
  {
    if records == [] then []
    else PackageRelations(records[..|records| - 1]) + records[|records| - 1].relations
  }

  function Commit(s: Store, e: Effect): Store {
    match e
    case Nothing => s
    case Settle(entry) => s.(operations := Post(s.operations, Some(entry)))
    case Create(m, f, v) =>
      s.(memories := s.memories[m.id := m], vectors := s.vectors[m.id := v],
         history := s.history[m.id := [Snapshot(m, "created")]],
         fingerprints := Register(s.fingerprints, m, f))
    case Advance(m, reason, v, link, entry) =>
      s.(memories := s.memories[m.id := m], vectors := s.vectors[m.id := v],
         history := s.history[m.id := HistoryOf(s, m.id) + [Snapshot(m, reason)]],
         relations := Attach(s.relations, link), operations := Post(s.operations, entry))
    case Erase(id, entry) =>
      Bury(s, id).(operations := Post(s.operations, entry))
    case Link(r) => s.(relations := Attach(s.relations, Some(r)))
    case Load(records) =>
      var t := LoadRecords(s, records);
      t.(relations := LoadRelations(t.relations, PackageRelations(records)))
  }

  // ---------------------------------------------------------------- decisions

  datatype Outcome = Outcome(effect: Effect, reply: Reply)

  /** `None`: the key is newly claimed. `Some(row)`: the completed row to replay. */
  function Claim(s: Store, key: OperationKey, f: Fingerprint): Result<Option<Operation>> {
    if key !in s.operations then Ok(None)
    else
      var row := s.operations[key];
      var _ :- Check(row.fingerprint == f, IdempotencyConflict);
      var _ :- Check(row.status == Completed, IdempotencyInProgress);
      Ok(Some(row))
  }

  function ClaimIfKeyed(s: Store, key: Option<OperationKey>, f: Fingerprint): Result<Option<Operation>> {
    if key.Some? then Claim(s, key.value, f) else Ok(None)
  }

  /** An empty key counts as no key. */
  function LedgerKey(owner: string, op: OperationType, key: Option<string>): Option<OperationKey> {
    if key.Some? && key.value != "" then Some(OperationKey(owner, op, key.value)) else None
  }

  function Row(f: Fingerprint, id: Id, version: Option<int>, status: string): Operation {
    Operation(f, Completed, Some(id), version, Some(status))
  }

  function SettleIfKeyed(key: Option<OperationKey>, row: Operation): Option<Entry> {
    if key.Some? then Some(Entry(key.value, row)) else None
  }

  function Embed(p: Provider, text: string): Result<Vector> {
    var v := p.embed(text);
    var _ :- Check(v.Some?, ProviderFailure);
    var _ :- Check(|v.value| == p.profile.dimension, ValidationError);
    Ok(v.value)
  }

  function WriteFingerprint(c: WriteCommand): Fingerprint {
    WriteDigest(c.content, c.memoryType, c.importance, c.confidence, c.space, c.occurredAt, c.provenance)
  }

  function CaptureFingerprint(c: CaptureCommand): Fingerprint {
    CaptureDigest(c.tenant, c.connection, c.content, c.memoryType, c.space, c.importance, c.confidence,
                  c.provenance, c.consent)
  }

  function ConfirmFingerprint(c: ConfirmCommand): Fingerprint {
    ConfirmDigest(c.memoryId, c.expectedVersion, c.content, c.memoryType, c.space, c.reason)
  }

  function PinFingerprint(c: PinCommand): Fingerprint {
    PinDigest(c.memoryId, c.expectedVersion, c.pinned)
  }

  function DiscardFingerprint(c: DiscardCommand): Fingerprint {
    DiscardDigest(c.memoryId, c.expectedVersion, c.reason)
  }

  /** Every field of the command except its idempotency key. */
  function UpdateFingerprint(c: UpdateCommand): Fingerprint {
    UpdateDigest(c.(key := None))
  }

  /** The write key of a creation is already bound: same digest replays, another conflicts. */
  function Bound(s: Store, w: WriteKey, f: Fingerprint): Result<bool> {
    if w !in s.fingerprints then Ok(false)
    else
      var _ :- Check(HasHolder(s, w), MissingHolder);
      var _ :- Check(s.fingerprints[w] == f, IdempotencyConflict);
      Ok(true)
  }

  function Draft(c: WriteCommand, env: Env): Memory {
    Memory(env.freshId, c.owner, c.content, c.memoryType, c.importance, c.confidence, Active, 1,
           env.now, env.now, c.occurredAt, c.space, c.provenance, Some(env.provider.profile), c.key,
           c.tenant, None)
  }

  function DecideWrite(s: Store, env: Env, c: WriteCommand): Result<Outcome> {
    var _ :- Check(ValidOwner(c.owner), ValidationError);
    var keyed := c.key.Some? && c.key.value != "";
    var bound :- if keyed then Bound(s, WriteKey(c.owner, c.key.value), WriteFingerprint(c)) else Ok(false);
    if bound then Ok(Outcome(Nothing, Existing))
    else
      var v :- Embed(env.provider, c.content);
      var m :- Construct(Draft(c, env));
      Ok(Outcome(Create(m, WriteFingerprint(c), v), Created(m)))
  }

  /** Consent, policy and scope rules that come before any capture touches the store. */
  function CaptureAllowed(c: CaptureCommand): Result<()> {
    var _ :- Check("memory:write" in c.scopes, ScopeDenied);
    var _ :- Check(!Blank(c.tenant) && !Blank(c.connection), ValidationError);
    var _ :- Check(ValidOwner(c.owner), ValidationError);
    var _ :- Check(!c.revoked, ConnectionRevoked);
    var _ :- Check(c.policy != "disabled", CaptureDisabled);
    var _ :- Check(c.policy in {"manual", "assisted", "automatic"}, ValidationError);
    var _ :- Check(c.policy == "manual" ==> c.consent.reason in {UserRequestedMemory, UserConfirmedInbox},
                   ConsentRequired);
    var _ :- Check(c.policy == "automatic" ==> c.consent.mode == Automatic, ConsentRequired);
    Check(c.provenance.sourceClient.Some? && c.provenance.sourceClient.value != "", ValidationError)
  }

  function CaptureDraft(c: CaptureCommand, env: Env): Memory {
    Memory(env.freshId, c.owner, c.content, c.memoryType, c.importance, c.confidence, Candidate, 1,
           env.now, env.now, None, c.space, c.provenance, Some(env.provider.profile), Some(c.key),
           Some(c.tenant), Some(c.consent))
  }

  function DecideCapture(s: Store, env: Env, c: CaptureCommand): Result<Outcome> {
    var _ :- CaptureAllowed(c);
    var bound :- Bound(s, WriteKey(c.owner, c.key), CaptureFingerprint(c));
    if bound then Ok(Outcome(Nothing, Existing))
    else
      var v :- Embed(env.provider, c.content);
      var m :- Construct(CaptureDraft(c, env));
      Ok(Outcome(Create(m, CaptureFingerprint(c), v), Created(m)))
  }

  function MutationAllowed(scopes: set<string>, required: string, tenant: string, owner: string, revoked: bool)
    : Result<()>
  {
    var _ :- Check(required in scopes, ScopeDenied);
    var _ :- Check(!Blank(tenant) && ValidOwner(owner), ValidationError);
    Check(!revoked, ConnectionRevoked)
  }

  /** The answer to a repeated update, confirm or pin: the version the row remembers. */
  function Replay(s: Store, owner: string, tenant: Option<string>, row: Operation, id: Id, expected: int)
    : Result<Outcome>
  {
    var m :- GetVersion(s, owner, OrElse(row.memoryId, id), OrElse(row.resultVersion, expected), tenant);
    Ok(Outcome(Nothing, Returned(m)))
  }

  function ConfirmChanges(c: ConfirmCommand, env: Env): Changes {
    Changes(c.content, c.memoryType, None, None, Some(Confirmed), None, c.space, None, Some(env.provider.profile))
  }

  function DecideConfirm(s: Store, env: Env, c: ConfirmCommand): Result<Outcome> {
    var _ :- MutationAllowed(c.scopes, "memory:write", c.tenant, c.owner, c.revoked);
    var key := OperationKey(c.owner, ConfirmOp, c.key);
    var prior :- Claim(s, key, ConfirmFingerprint(c));
    if prior.Some? then Replay(s, c.owner, Some(c.tenant), prior.value, c.memoryId, c.expectedVersion)
    else
      var current :- Found(Get(s, c.owner, c.memoryId, Some(c.tenant)));
      var _ :- Check(current.version == c.expectedVersion, VersionConflict);
      var _ :- Check(current.state in {Candidate, Stale}, InvalidTransition);
      var m :- Evolve(current, env.now, ConfirmChanges(c, env), c.reason, None);
      var v :- Embed(env.provider, m.content);
      var entry := Entry(key, Row(ConfirmFingerprint(c), m.id, Some(m.version), "confirmed"));
      Ok(Outcome(Advance(m, c.reason, v, None, Some(entry)), Returned(m)))
  }

  function PinTarget(c: PinCommand): MemoryState {
    if c.pinned then Pinned else Confirmed
  }

  function PinLabel(c: PinCommand): string {
    if c.pinned then "pinned" else "confirmed"
  }

  /** Pinning embeds again but, unlike confirm and update, keeps the old embedding descriptor. */
  function DecidePin(s: Store, env: Env, c: PinCommand): Result<Outcome> {
    var _ :- MutationAllowed(c.scopes, "memory:write", c.tenant, c.owner, c.revoked);
    var key := OperationKey(c.owner, PinOp, c.key);
    var prior :- Claim(s, key, PinFingerprint(c));
    if prior.Some? then Replay(s, c.owner, Some(c.tenant), prior.value, c.memoryId, c.expectedVersion)
    else
      var current :- Found(Get(s, c.owner, c.memoryId, Some(c.tenant)));
      var _ :- Check(current.version == c.expectedVersion, VersionConflict);
      var _ :- Check(current.state in {Confirmed, Pinned}, InvalidTransition);
      if current.state == PinTarget(c) then
        var entry := Entry(key, Row(PinFingerprint(c), current.id, Some(current.version), PinLabel(c)));
        Ok(Outcome(Settle(entry), Returned(current)))
      else
        var changes := Changes(None, None, None, None, Some(PinTarget(c)), None, None, None, None);
        var m :- Evolve(current, env.now, changes, if c.pinned then "pinned" else "unpinned", None);
        var v :- Embed(env.provider, m.content);
        var entry := Entry(key, Row(PinFingerprint(c), m.id, Some(m.version), PinLabel(c)));
        Ok(Outcome(Advance(m, PinLabel(c), v, None, Some(entry)), Returned(m)))
  }

  function DecideDiscard(s: Store, c: DiscardCommand): Result<Outcome> {
    var _ :- MutationAllowed(c.scopes, "memory:delete", c.tenant, c.owner, c.revoked);
    var key := OperationKey(c.owner, DiscardOp, c.key);
    var prior :- Claim(s, key, DiscardFingerprint(c));
    if prior.Some? then Ok(Outcome(Nothing, Gone(c.memoryId, prior.value.resultStatus == Some("forgotten"))))
    else
      var current :- Found(Get(s, c.owner, c.memoryId, Some(c.tenant)));
      var _ :- Check(current.version == c.expectedVersion, VersionConflict);
      var _ :- Check(current.state == Candidate, InvalidTransition);
      var entry := Entry(key, Row(DiscardFingerprint(c), c.memoryId, None, "forgotten"));
      Ok(Outcome(Erase(c.memoryId, Some(entry)), Gone(c.memoryId, true)))
  }

  /** The memory an update supersedes or contradicts, and the relation it will carry. */
  function Related(c: UpdateCommand): Option<Id> {
    if c.supersedes.Some? then c.supersedes else c.contradicts
  }

  function LinkOf(c: UpdateCommand, id: Id, now: Time): Option<Relation> {
    if c.supersedes.Some? then Some(Relation(id, c.supersedes.value, Supersedes, c.owner, now))
    else if c.contradicts.Some? then Some(Relation(id, c.contradicts.value, Contradicts, c.owner, now))
    else None
  }

  function UpdateChanges(c: UpdateCommand, env: Env): Changes {
    var state := if c.supersedes.Some? then Some(Superseded)
                 else if c.contradicts.Some? then Some(Contradicted) else c.state;
    Changes(c.content, c.memoryType, c.importance, c.confidence, state, c.occurredAt, c.space,
            c.provenance, Some(env.provider.profile))
  }

  function RelatedExists(s: Store, c: UpdateCommand, id: Id): Result<()> {
    var _ :- Check(c.supersedes.None? || c.contradicts.None?, ValidationError);
    var related := Related(c);
    if related.None? then Ok(())
    else
      var _ :- Check(related.value != id, ValidationError);
      Check(Get(s, c.owner, related.value, None).Some?, NotFound)
  }

  /** An update whose key is not a replay. */
  function FreshUpdate(s: Store, env: Env, c: UpdateCommand, key: Option<OperationKey>): Result<Outcome> {
    var current :- Found(Get(s, c.owner, c.memoryId, None));
    var _ :- Check(current.version == c.expectedVersion, VersionConflict);
    var _ :- RelatedExists(s, c, current.id);
    var m :- Evolve(current, env.now, UpdateChanges(c, env), c.reason, Related(c));
    var v :- Embed(env.provider, m.content);
    var link := LinkOf(c, m.id, env.now);
    var _ :- Check(link.Some? ==> KeyOfRelation(link.value) !in s.relations, RelationConflict);
    var entry := SettleIfKeyed(key, Row(UpdateFingerprint(c), m.id, Some(m.version), "updated"));
    Ok(Outcome(Advance(m, c.reason, v, link, entry), Returned(m)))
  }

  function DecideUpdate(s: Store, env: Env, c: UpdateCommand): Result<Outcome> {
    var _ :- Check(ValidOwner(c.owner), ValidationError);
    var key := LedgerKey(c.owner, UpdateOp, c.key);
    var prior :- ClaimIfKeyed(s, key, UpdateFingerprint(c));
    if prior.Some? then Replay(s, c.owner, None, prior.value, c.memoryId, c.expectedVersion)
    else FreshUpdate(s, env, c, key)
  }

  function DecideForget(s: Store, c: ForgetCommand): Result<Outcome> {
    var _ :- Check(ValidOwner(c.owner), ValidationError);
    var key := LedgerKey(c.owner, ForgetOp, c.key);
    var f := ForgetDigest(c.owner, c.memoryId);
    var prior :- ClaimIfKeyed(s, key, f);
    if prior.Some? then Ok(Outcome(Nothing, Gone(c.memoryId, false)))
    else if Get(s, c.owner, c.memoryId, c.tenant).Some? then
      var entry := SettleIfKeyed(key, Row(f, c.memoryId, None, "forgotten"));
      Ok(Outcome(Erase(c.memoryId, entry), Gone(c.memoryId, true)))
    else
      var entry := SettleIfKeyed(key, Row(f, c.memoryId, None, "already_absent"));
      Ok(Outcome(if entry.Some? then Settle(entry.value) else Nothing, Gone(c.memoryId, false)))
  }

  function DecideRelate(s: Store, env: Env, c: RelateCommand): Result<Outcome> {
    var _ :- Check(ValidOwner(c.owner), ValidationError);
    var _ :- Check(c.kind.Some? && c.source != c.target, ValidationError);
    var _ :- Check(Get(s, c.owner, c.source, None).Some? && Get(s, c.owner, c.target, None).Some?, NotFound);
    var r := Relation(c.source, c.target, c.kind.value, c.owner, env.now);
    var _ :- Check(KeyOfRelation(r) !in s.relations, RelationConflict);
    Ok(Outcome(Link(r), Linked(r)))
  }

  // ---------------------------------------------------------------- import

  predicate DistinctIds(records: seq<Record>) {
    forall i, j :: 0 <= i < j < |records| ==> records[i].memory.id != records[j].memory.id
  }

  predicate CompleteHistory(m: Memory, h: seq<MemoryVersion>) {
    && |h| == m.version
    && forall i :: 0 <= i < |h| ==> h[i].version == i + 1 && h[i].memoryId == m.id
  }

  predicate ValidRecord(owner: string, r: Record) {
    && r.memory.owner == owner
    && CompleteHistory(r.memory, r.history)
    && (r.memory.idempotencyKey.Some? ==> r.fingerprint.Some?)
    && (r.fingerprint.Some? ==> ValidFingerprint(r.fingerprint.value))
    && (r.embedding.Some? ==> r.memory.embedding.Some? && |r.embedding.value| == r.memory.embedding.value.dimension)
    && forall i :: 0 <= i < |r.relations| ==> r.relations[i].owner == owner
  }

  predicate InPackage(records: seq<Record>, id: Id) {
    exists i :: 0 <= i < |records| && records[i].memory.id == id
  }

  predicate Reaches(s: Store, owner: string, records: seq<Record>, id: Id) {
    InPackage(records, id) || Get(s, owner, id, None).Some?
  }

  predicate EndpointsExist(s: Store, owner: string, records: seq<Record>) {
    forall i, j :: 0 <= i < |records| && 0 <= j < |records[i].relations| ==>
      Reaches(s, owner, records, records[i].relations[j].source)
          && Reaches(s, owner, records, records[i].relations[j].target)
  }

  /** The relations an export of `id` lists. */
  function Listed(s: Store, owner: string, id: Id): set<Relation> {
    set k | k in s.relations && s.relations[k].owner == owner && Touches(s.relations[k], id) :: s.relations[k]
  }

  function StoredFingerprint(s: Store, m: Memory): Option<Fingerprint> {
    if m.idempotencyKey.Some? && WriteKey(m.owner, m.idempotencyKey.value) in s.fingerprints
    then Some(s.fingerprints[WriteKey(m.owner, m.idempotencyKey.value)]) else None
  }

  function StoredVector(s: Store, id: Id): Option<Vector> {
    if id in s.vectors then Some(s.vectors[id]) else None
  }

  /** An incoming record says the same as the stored memory. */
  predicate Equivalent(s: Store, owner: string, r: Record)
    requires r.memory.id in s.memories
  {
    var id := r.memory.id;
    && r.memory == s.memories[id]
    && (r.fingerprint.Some? ==> r.fingerprint == StoredFingerprint(s, s.memories[id]))
    && r.history == HistoryOf(s, id)
    && (set x | x in r.relations :: KeyOfRelation(x)) == (set x | x in Listed(s, owner, id) :: KeyOfRelation(x))
    && (r.embedding.Some? ==> r.embedding == StoredVector(s, id))
  }

  function ScreenRecord(s: Store, owner: string, r: Record): Result<()> {
    if Get(s, owner, r.memory.id, None).None? then
      Check(Tombstone(owner, r.memory.tenant, r.memory.id) !in s.tombstones, RestoreBlocked)
    else Check(Equivalent(s, owner, r), ImportConflict)
  }

  function Screen(s: Store, owner: string, records: seq<Record>): Result<()>
    decreases |records|
  {
    if records == [] then Ok(())
    else
      var _ :- Screen(s, owner, records[..|records| - 1]);
      ScreenRecord(s, owner, records[|records| - 1])
  }

  function PrepareRecord(s: Store, env: Env, owner: string, r: Record): Result<Record> {
    if Get(s, owner, r.memory.id, None).Some? || r.embedding.Some? then Ok(r)
    else
      var _ :- Check(r.memory.embedding == Some(env.provider.profile), ProfileMismatch);
      var v :- Embed(env.provider, r.memory.content);
      Ok(r.(embedding := Some(v)))
  }

  function Prepare(s: Store, env: Env, owner: string, records: seq<Record>): Result<seq<Record>>
    decreases |records|
  {
    if records == [] then Ok([])
    else
      var done :- Prepare(s, env, owner, records[..|records| - 1]);
      var r :- PrepareRecord(s, env, owner, records[|records| - 1]);
      Ok(done + [r])
  }

  /** The repository's own checks while it inserts. */
  function AdmitRecord(s: Store, r: Record): Result<()> {
    var _ :- Check(Grave(r.memory) !in s.tombstones, RestoreBlocked);
    Check(r.memory.id in s.memories ==> s.memories[r.memory.id] == r.memory, ImportConflict)
  }

  function Admit(s: Store, records: seq<Record>): Result<()>
    decreases |records|
  {
    if records == [] then Ok(())
    else
      var _ :- Admit(s, records[..|records| - 1]);
      AdmitRecord(s, records[|records| - 1])
  }

  /** What the repository does with one record. */
  function TakeRecord(s: Store, r: Record): Result<Store> {
    var _ :- AdmitRecord(s, r);
    var _ :- Check(r.memory.id in s.memories || r.embedding.Some?, UnpreparedRecord);
    Ok(LoadRecord(s, r))
  }

  /** The records in turn, each against the store the earlier ones have made. */
  function TakeRecords(s: Store, records: seq<Record>): Result<Store>
    decreases |records|
  {
    if records == [] then Ok(s)
    else
      var before :- TakeRecords(s, records[..|records| - 1]);
      TakeRecord(before, records[|records| - 1])
  }

  function CountNew(s: Store, records: seq<Record>): nat
    decreases |records|
  {
    if records == [] then 0
    else CountNew(s, records[..|records| - 1]) + if records[|records| - 1].memory.id in s.memories then 0 else 1
  }

  lemma CountNewBound(s: Store, records: seq<Record>)
    ensures CountNew(s, records) <= |records|
    decreases |records|
  {
    if records != [] {
      CountNewBound(s, records[..|records| - 1]);
    }
  }

  function DecideImport(s: Store, env: Env, owner: string, records: seq<Record>): Result<Outcome> {
    var _ :- Check(ValidOwner(owner), ValidationError);
    var _ :- Check(DistinctIds(records) && forall i :: 0 <= i < |records| ==> ValidRecord(owner, records[i]),
                   ValidationError);
    var _ :- Check(EndpointsExist(s, owner, records), NotFound);
    var _ :- Screen(s, owner, records);
    var prepared :- Prepare(s, env, owner, records);
    var _ :- Admit(s, prepared);
    CountNewBound(s, prepared);
    Ok(Outcome(Load(prepared), ImportReport(CountNew(s, prepared), |prepared| - CountNew(s, prepared))))
  }

  // ---------------------------------------------------------------- transactions and runs

  function Decide(s: Store, env: Env, c: Command): Result<Outcome> {
    match c
    case Write(w) => DecideWrite(s, env, w)
    case Capture(w) => DecideCapture(s, env, w)
    case Confirm(w) => DecideConfirm(s, env, w)
    case Pin(w) => DecidePin(s, env, w)
    case Discard(w) => DecideDiscard(s, w)
    case Update(w) => DecideUpdate(s, env, w)
    case Forget(w) => DecideForget(s, w)
    case Relate(w) => DecideRelate(s, env, w)
    case Import(owner, records) => DecideImport(s, env, owner, records)
  }

  /** One transaction: committed when it decides, rolled back when it raises. */
  function Apply(s: Store, env: Env, c: Command): Store {
    var d := Decide(s, env, c);
    if d.Ok? then Commit(s, d.value.effect) else s
  }

  datatype Step = Step(env: Env, command: Command)

  function Run(s: Store, steps: seq<Step>): Store
    decreases |steps|
  {
    if steps == [] then s
    else
      var before := Run(s, steps[..|steps| - 1]);
      Apply(before, steps[|steps| - 1].env, steps[|steps| - 1].command)
  }
}
