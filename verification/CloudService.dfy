/** The cloud store's code: dictionaries changed in place, and the re-embedding handler that acts
    on the store while other operations run. */
module CloudService {
  import opened Domain
  import opened Envelope
  import opened CloudStore
  import opened CloudSafety
  import Worker

  class EncryptedCloudMemoryService {
    var keyVersion: int
    var records: map<MemId, CloudRecord>
    var writeKeys: map<CloudWriteKey, MemId>
    var forgetKeys: set<OwnedId>
    var tombstones: map<OwnedId, Time>
    var embeddings: map<MemId, Embedding>

    function View(): CloudState
      reads this
    {
      CloudState(keyVersion, records, writeKeys, forgetKeys, tombstones, embeddings)
    }

    constructor (version: int)
      ensures View() == CloudState(version, map[], map[], {}, map[], map[])
    {
      keyVersion, records, writeKeys, forgetKeys, tombstones, embeddings := version, map[], map[], {}, map[], map[];
    }

    method Write(env: CloudEnv, p: WritePayload) returns (r: Outcome<Plain>)
      modifies this
      ensures (View(), r) == WriteOp(old(View()), env, p)
    {
      hide Read, NewRecord;
      if TenantOf(p.owner).Failed? {
        return Failed(Forbidden);
      }
      var w := CloudWriteKey(p.owner, p.key);
      if w in writeKeys {
        if writeKeys[w] !in records {
          return Failed(MissingKey);
        }
        return Read(env.kms, records[writeKeys[w]]);
      }
      var stored := NewRecord(env, p, keyVersion);
      if stored.Failed? {
        return Failed(stored.error);
      }
      records := records[stored.value.id := stored.value];
      writeKeys := writeKeys[w := stored.value.id];
      return Read(env.kms, stored.value);
    }

    method GetPlain(kms: Kms, owner: Owner, id: MemId) returns (r: Outcome<Option<Plain>>)
      ensures r == GetRecord(View(), kms, owner, id)
    {
      hide Read;
      if TenantOf(owner).Failed? {
        return Failed(Forbidden);
      }
      if id !in records || records[id].owner != owner {
        return Done(None);
      }
      var plain := Read(kms, records[id]);
      if plain.Failed? {
        return Failed(plain.error);
      }
      return Done(Some(plain.value));
    }

    method Update(env: CloudEnv, p: UpdatePayload) returns (r: Outcome<Plain>)
      modifies this
      ensures (View(), r) == UpdateOp(old(View()), env, p)
    {
      hide Read, PatchedContent;
      if p.id !in records || records[p.id].owner != p.owner {
        return Failed(MissingKey);
      }
      var stored := records[p.id];
      if stored.version != p.expectedVersion {
        return Failed(BadValue);
      }
      var content := PatchedContent(View(), env, stored, p.patch.content);
      if content.Failed? {
        return Failed(content.error);
      }
      stored := stored.(content := content.value);
      if p.patch.kind.Some? { stored := stored.(kind := p.patch.kind.value); }
      if p.patch.space.Some? { stored := stored.(space := p.patch.space); }
      if p.patch.importance.Some? { stored := stored.(importance := p.patch.importance.value); }
      if p.patch.confidence.Some? { stored := stored.(confidence := p.patch.confidence.value); }
      if p.patch.state.Some? { stored := stored.(state := p.patch.state.value); }
      stored := stored.(version := stored.version + 1, updatedAt := env.now);
      records := records[p.id := stored];
      embeddings := embeddings - {stored.id};
      return Read(env.kms, stored);
    }

    method StoreEmbedding(owner: Owner, id: MemId, version: int, values: Vector) returns (r: Outcome<bool>)
      modifies this`embeddings
      ensures (View(), r) == StoreEmbeddingOp(old(View()), owner, id, version, values)
    {
      if TenantOf(owner).Failed? {
        return Failed(Forbidden);
      }
      if id !in records || records[id].owner != owner || records[id].state != "active"
          || records[id].version != version {
        return Done(false);
      }
      embeddings := embeddings[id := Embedding(owner, version, values)];
      return Done(true);
    }

    method Forget(now: Time, owner: Owner, id: MemId) returns (forgotten: bool)
      modifies this
      ensures (View(), forgotten) == ForgetOp(old(View()), now, owner, id)
    {
      var key := OwnedId(owner, id);
      if key in forgetKeys {
        return false;
      }
      forgetKeys := forgetKeys + {key};
      if id !in records || records[id].owner != owner {
        return false;
      }
      tombstones := tombstones[key := now];
      records := records - {id};
      embeddings := embeddings - {id};
      return true;
    }

    method DeleteOwner(now: Time, owner: Owner) returns (r: Outcome<nat>)
      modifies this
      ensures (View(), r) == DeleteOwnerOp(old(View()), now, owner)
    {
      if TenantOf(owner).Failed? {
        return Failed(Forbidden);
      }
      var ids := set id | id in records && records[id].owner == owner;
      ghost var start := View();
      assert ids == Owned(start, owner);
      var todo := ids;
      BuryNone(start, now, owner);
      assert ids - todo == {};
      while todo != {}
        invariant todo <= ids
        invariant View() == BuryOwned(start, now, owner, ids - todo)
      {
        hide BuryOwned;
        var id :| id in todo;
        BuryOneMore(start, now, owner, ids - todo, id);
        assert ids - (todo - {id}) == (ids - todo) + {id};
        forgetKeys := forgetKeys + {OwnedId(owner, id)};
        tombstones := tombstones[OwnedId(owner, id) := now];
        records := records - {id};
        embeddings := embeddings - {id};
        todo := todo - {id};
      }
      assert ids - todo == ids;
      writeKeys := map w | w in writeKeys && w.owner != owner :: writeKeys[w];
      return Done(|ids|);
    }

    /** The records with the ledger beside them. */
    method TakeBackup() returns (snapshot: Snapshot)
      ensures IsBackup(View(), snapshot)
    {
      var ledger := ListTombstones();
      return Snapshot(true, Some(WholeRecords(records)), ledger);
    }

    /** One entry for each tombstone. */
    method ListTombstones() returns (ledger: seq<LedgerEntry>)
      ensures ListsLedger(ledger, tombstones)
    {
      ledger := [];
      var todo := tombstones.Keys;
      while todo != {}
        invariant todo <= tombstones.Keys
        invariant forall i :: 0 <= i < |ledger| ==>
                    && ledger[i].LedgerEntry? && KeyOfEntry(ledger[i]) in tombstones && KeyOfEntry(ledger[i]) !in todo
                    && tombstones[KeyOfEntry(ledger[i])] == ledger[i].deletedAt
        invariant forall i, j :: 0 <= i < j < |ledger| ==> KeyOfEntry(ledger[i]) != KeyOfEntry(ledger[j])
        invariant forall k :: k in tombstones && k !in todo ==>
            exists i :: 0 <= i < |ledger| && KeyOfEntry(ledger[i]) == k
      {
        var k :| k in todo;
        ghost var before := ledger;
        ledger := ledger + [LedgerEntry(k.owner, k.id, tombstones[k])];
        todo := todo - {k};
        assert KeyOfEntry(ledger[|ledger| - 1]) == k;
        forall x | x in tombstones && x !in todo ensures exists i :: 0 <= i < |ledger| && KeyOfEntry(ledger[i]) == x {
          if x != k {
            var i :| 0 <= i < |before| && KeyOfEntry(before[i]) == x;
            assert ledger[i] == before[i];
          }
        }
      }
    }

    /** Takes ledger entries in until one is invalid. */
    method ExtendLedger(entries: seq<LedgerEntry>) returns (ok: bool)
      modifies this`tombstones
      ensures ok <==> ValidEntries(entries)
      ensures tombstones == Ledger(old(tombstones), entries)
    {
      for n := 0 to |entries|
        invariant ValidEntries(entries[..n])
        invariant tombstones == Ledger(old(tombstones), entries[..n])
      {
        assert entries[..n + 1][..n] == entries[..n] && entries[..n + 1][n] == entries[n];
        if !ValidEntry(entries[n]) {
          LedgerStops(old(tombstones), entries, n);
          return false;
        }
        tombstones := tombstones[OwnedId(entries[n].owner, entries[n].id) := entries[n].deletedAt];
      }
      assert entries[..|entries|] == entries;
      return true;
    }

    method Restore(snapshot: Snapshot, entries: seq<LedgerEntry>) returns (r: Outcome<nat>)
      modifies this
      ensures (View(), r) == RestoreOp(old(View()), snapshot, entries)
    {
      hide Ledger, ValidEntries;
      if !snapshot.formatKnown || snapshot.records.None? {
        return Failed(BadValue);
      }
      if !ValidLedger(tombstones) {
        return Failed(Forbidden);
      }
      var accepted := ExtendLedger(entries);
      if !accepted {
        return Failed(BadValue);
      }
      var raw := snapshot.records.value;
      var restored: map<MemId, CloudRecord> := map[];
      var todo := raw.Keys;
      while todo != {}
        invariant todo <= raw.Keys && restored.Keys == raw.Keys - todo
        invariant forall id :: id in restored ==> ValidRaw(id, raw[id]) && restored[id] == raw[id].record
      {
        var id :| id in todo;
        if !ValidRaw(id, raw[id]) {
          return Failed(BadValue);
        }
        restored := restored[id := raw[id].record];
        todo := todo - {id};
      }
      restored := DropDeleted(restored);
      assert restored == Surviving(raw, tombstones);
      records := restored;
      embeddings := KeepVectors(embeddings, records);
      writeKeys := KeepKeys(writeKeys, records);
      return Done(|records|);
    }

    static predicate Buried(found: map<MemId, CloudRecord>, keys: set<OwnedId>, id: MemId)
      requires id in found
    {
      OwnedId(found[id].owner, id) in keys
    }

    /** Walks the ledger and drops each record it names for the same owner. */
    method DropDeleted(found: map<MemId, CloudRecord>) returns (kept: map<MemId, CloudRecord>)
      ensures kept == map id | id in found && OwnedId(found[id].owner, id) !in tombstones :: found[id]
    {
      kept := found;
      var todo := tombstones.Keys;
      while todo != {}
        invariant todo <= tombstones.Keys
        invariant kept == map id | id in found && !Buried(found, tombstones.Keys - todo, id) :: found[id]
      {
        var key :| key in todo;
        if key.id in kept && kept[key.id].owner == key.owner {
          kept := kept - {key.id};
        }
        todo := todo - {key};
      }
    }

    /** Rotates every field that is not at `version` aside, then puts them all in place. */
    method RewrapAll(env: CloudEnv, version: int) returns (r: Outcome<nat>)
      modifies this
      ensures View() == RewrapOp(old(View()), env, version).0
      ensures r.Done? <==> RewrapOp(old(View()), env, version).1.Done?
      ensures r.Done? ==> r == RewrapOp(old(View()), env, version).1
    {
      hide Outdated;
      if version < 1 || version < keyVersion {
        return Failed(BadValue);
      }
      var ok, pending := RotateAside(env, version);
      if !ok {
        return Failed(Forbidden);
      }
      assert pending.Keys == Outdated(View(), version);
      assert |pending| == |pending.Keys|;
      var count := |pending|;
      ghost var start := View();
      PutInPlace(pending);
      assert records == map id | id in start.records :: RewrapRecord(env, start.records[id], version).value by {
        forall id | id in start.records ensures records[id] == RewrapRecord(env, start.records[id], version).value {
          RotatedRecord(start, env, version, pending, id);
        }
      }
      keyVersion := version;
      return Done(count);
    }

    method RotateAside(env: CloudEnv, version: int) returns (ok: bool, pending: map<FieldRef, Envelope>)
      ensures ok <==> Rewrappable(View(), env, version)
      ensures ok ==> pending.Keys == Outdated(View(), version)
      ensures ok ==> forall ref :: ref in pending ==>
                ref.id in records && RewrapField(env, records[ref.id], ref.field, version) == Done(pending[ref])
    {
      hide RewrapField;
      pending := map[];
      var todo := records.Keys;
      while todo != {}
        invariant todo <= records.Keys
        invariant forall id :: id in records && id !in todo ==> RewrapRecord(env, records[id], version).Done?
        invariant forall ref :: ref in pending <==> ref in Outdated(View(), version) && ref.id !in todo
        invariant forall ref :: ref in pending ==>
            RewrapField(env, records[ref.id], ref.field, version) == Done(pending[ref])
      {
        var id :| id in todo;
        var stored := records[id];
        if TenantOf(stored.owner).Failed? || UuidOf(stored.id).Failed? {
          return false, pending;
        }
        var content := RewrapField(env, stored, ContentField, version);
        if content.Failed? {
          return false, pending;
        }
        var provenance := RewrapField(env, stored, ProvenanceField, version);
        if provenance.Failed? {
          return false, pending;
        }
        if stored.content.keyVersion != version {
          pending := pending[FieldRef(id, ContentField) := content.value];
        }
        if stored.provenance.keyVersion != version {
          pending := pending[FieldRef(id, ProvenanceField) := provenance.value];
        }
        todo := todo - {id};
      }
      return true, pending;
    }

    method PutInPlace(pending: map<FieldRef, Envelope>)
      requires forall ref :: ref in pending ==> ref.id in records
      modifies this`records
      ensures records.Keys == old(records.Keys)
      ensures forall id :: id in records ==> records[id] == WithPending(old(records)[id], id, pending)
    {
      var todo := pending.Keys;
      while todo != {}
        invariant todo <= pending.Keys && records.Keys == old(records.Keys)
        invariant forall id :: id in records ==> records[id] == WithPending(old(records)[id], id, pending - todo)
      {
        var ref :| ref in todo;
        PendingOneMore(old(records), pending, todo, ref);
        hide WithPending, SetField;
        records := records[ref.id := SetField(records[ref.id], ref.field, pending[ref])];
        todo := todo - {ref};
      }
      assert pending - todo == pending;
    }

    /** Carries out one call of a run. */
    method Perform(call: CloudCall)
      modifies this
      ensures View() == Next(old(View()), call.env, call.step)
    {
      hide WriteOp, UpdateOp, StoreEmbeddingOp, ForgetOp, DeleteOwnerOp, RestoreOp, RewrapOp;
      match call.step
      case WriteStep(p) => var r := Write(call.env, p);
      case UpdateStep(p) => var r := Update(call.env, p);
      case EmbeddingStep(owner, id, version, values) => var r := StoreEmbedding(owner, id, version, values);
      case ForgetStep(owner, id) => var r := Forget(call.env.now, owner, id);
      case DeleteOwnerStep(owner) => var r := DeleteOwner(call.env.now, owner);
      case RestoreStep(snapshot, entries) => var r := Restore(snapshot, entries);
      case RotateStep(version) =>
        if version >= 1 && version >= keyVersion {
          keyVersion := version;
        }
      case RewrapStep(version) => var r := RewrapAll(call.env, version);
    }

    method PerformAll(calls: seq<CloudCall>)
      modifies this
      ensures View() == Play(old(View()), calls)
    {
      hide Next;
      for n := 0 to |calls|
        invariant View() == Play(old(View()), calls[..n])
      {
        Perform(calls[n]);
        assert calls[..n + 1][..n] == calls[..n] && calls[..n + 1][n] == calls[n];
      }
      assert calls[..|calls|] == calls;
    }
  }

  lemma BuryNone(s: CloudState, now: Time, owner: Owner)
    ensures BuryOwned(s, now, owner, {}) == s
  {
    assert OwnedKeys(owner, {}) == {};
    assert s.tombstones + (map k | k in OwnedKeys(owner, {}) :: now) == s.tombstones;
    assert s.records - {} == s.records && s.embeddings - {} == s.embeddings;
  }

  lemma BuryOneMore(s: CloudState, now: Time, owner: Owner, ids: set<MemId>, id: MemId)
    ensures
      var t := BuryOwned(s, now, owner, ids);
      BuryOwned(s, now, owner, ids + {id}) ==
      t.(forgetKeys := t.forgetKeys + {OwnedId(owner, id)}, tombstones := t.tombstones[OwnedId(owner, id) := now],
         records := t.records - {id}, embeddings := t.embeddings - {id})
  {
    var t, u := BuryOwned(s, now, owner, ids), BuryOwned(s, now, owner, ids + {id});
    assert OwnedKeys(owner, ids + {id}) == OwnedKeys(owner, ids) + {OwnedId(owner, id)};
    hide OwnedKeys;
    assert u.tombstones == t.tombstones[OwnedId(owner, id) := now];
    assert u.records == t.records - {id};
    assert u.embeddings == t.embeddings - {id};
  }

  function WithPending(r: CloudRecord, id: MemId, pending: map<FieldRef, Envelope>): CloudRecord {
    var c, p := FieldRef(id, ContentField), FieldRef(id, ProvenanceField);
    r.(content := if c in pending then pending[c] else r.content,
       provenance := if p in pending then pending[p] else r.provenance)
  }

  lemma PendingOneMore(start: map<MemId, CloudRecord>, pending: map<FieldRef, Envelope>, todo: set<FieldRef>,
                       ref: FieldRef)
    requires todo <= pending.Keys && ref in todo
    ensures forall id :: id in start ==>
              WithPending(start[id], id, pending - (todo - {ref})) ==
              if id == ref.id then SetField(WithPending(start[id], id, pending - todo), ref.field, pending[ref])
              else WithPending(start[id], id, pending - todo)
  {
  }

  lemma RotatedRecord(s: CloudState, env: CloudEnv, version: int, pending: map<FieldRef, Envelope>, id: MemId)
    requires id in s.records && Rewrappable(s, env, version) && pending.Keys == Outdated(s, version)
    requires forall ref :: ref in pending ==>
        ref.id in s.records && RewrapField(env, s.records[ref.id], ref.field, version) == Done(pending[ref])
    ensures WithPending(s.records[id], id, pending) == RewrapRecord(env, s.records[id], version).value
  {
    hide Rewrap;
    assert FieldRef(id, ContentField) in pending <==> s.records[id].content.keyVersion != version;
    assert FieldRef(id, ProvenanceField) in pending <==> s.records[id].provenance.keyVersion != version;
  }

  lemma {:induction false} LedgerStops(tombstones: map<OwnedId, Time>, entries: seq<LedgerEntry>, n: nat)
    requires n < |entries| && !ValidEntry(entries[n])
    ensures Ledger(tombstones, entries) == Ledger(tombstones, entries[..n])
    decreases |entries|
  {
    var rest := entries[..|entries| - 1];
    if n < |rest| {
      assert rest[n] == entries[n] && rest[..n] == entries[..n];
      LedgerStops(tombstones, rest, n);
    } else {
      assert rest == entries[..n];
    }
  }

  /** The re-embedding handler for a job whose reference parsed to `ref`. It reads the record,
      embeds its content while `others` run, and stores the vector only if owner, state and
      version still match. If `others` keep the master key and restore no other form of the record,
      ready means that the vector is the embedding of the record's current content at its current
      version; stale means the handler itself changed nothing. */
  method ReembedMemory(store: EncryptedCloudMemoryService, kms: Kms, claims: Worker.Claims, ref: Option<(MemId, int)>,
                       embed: string -> Option<Vector>, others: seq<CloudCall>) returns (result: Worker.HandlerResult)
    requires CloudInv(store.View()) && LegalCalls(store.View(), others)
    modifies store
    ensures result in {Worker.Returns(Worker.Ready), Worker.Returns(Worker.StaleJob), Worker.Raises}
    ensures result == Worker.Returns(Worker.Ready) ==> ref.Some? && ref.value.0 in old(store.View()).records
    ensures result == Worker.Returns(Worker.Ready) ==>
              SteadyRun(others, kms.master, old(store.View()).records[ref.value.0]) ==>
              VectorFresh(store.View(), kms.master, Cloud(claims.tenant, claims.principal), ref.value.0, embed)
    ensures result == Worker.Returns(Worker.Ready) ==>
              var owner := Cloud(claims.tenant, claims.principal);
              var read := GetRecord(old(store.View()), kms, owner, ref.value.0);
              && read.Done? && read.value.Some? && embed(read.value.value.content).Some?
              && (store.View(), Done(true)) ==
                 StoreEmbeddingOp(Play(old(store.View()), others), owner, ref.value.0, ref.value.1,
                                  embed(read.value.value.content).value)
    ensures result != Worker.Returns(Worker.Ready) ==>
        store.View() in {old(store.View()), Play(old(store.View()), others)}
  {
    hide Play, LegalCalls, SteadyRun, GetRecord, StoreEmbeddingOp, VectorFresh, CloudInv;
    if ref.None? || ref.value.1 < 1 {
      return Worker.Returns(Worker.StaleJob);
    }
    var id, version := ref.value.0, ref.value.1;
    var owner := Cloud(claims.tenant, claims.principal);
    var record := store.GetPlain(kms, owner, id);
    if record.Failed? {
      return Worker.Raises;
    }
    if record.value.None? || record.value.value.record.version != version {
      return Worker.Returns(Worker.StaleJob);
    }
    FoundIsLive(store.View(), kms, owner, id);
    var values := embed(record.value.value.content);
    store.PerformAll(others);
    if values.None? {
      return Worker.Raises;
    }
    if SteadyRun(others, kms.master, old(store.View()).records[id]) {
      ReembedIsFresh(old(store.View()), others, kms, owner, id, version, embed, values.value);
    }
    RefusedChangesNothing(store.View(), owner, id, version, values.value);
    var stored := store.StoreEmbedding(owner, id, version, values.value);
    return if stored.Failed? then Worker.Raises
           else Worker.Returns(if stored.value then Worker.Ready else Worker.StaleJob);
  }

  lemma FoundIsLive(s: CloudState, kms: Kms, owner: Owner, id: MemId)
    requires GetRecord(s, kms, owner, id).Done? && GetRecord(s, kms, owner, id).value.Some?
    ensures Live(s, owner, id)
  {
  }

  lemma RefusedChangesNothing(s: CloudState, owner: Owner, id: MemId, version: int, values: Vector)
    ensures StoreEmbeddingOp(s, owner, id, version, values).1 != Done(true) ==>
        StoreEmbeddingOp(s, owner, id, version, values).0 == s
  {
  }
}
