/** What each operation of the cloud store does, said of its tables and of what its owner can read. */
module CloudOutcomes {
  import opened Domain
  import opened Envelope
  import opened CloudStore
  import opened CloudSafety

  // ---------------------------------------------------------------- reading

  /** What the owner reads: the record with its two texts. */
  ghost predicate Reads(s: CloudState, kms: Kms, owner: Owner, id: MemId, content: string, provenance: string) {
    && id in s.records && s.records[id].owner == owner
    && GetRecord(s, kms, owner, id) == Done(Some(Plain(s.records[id], content, provenance)))
  }

  /** Reading answers an owner's record by its meaning while the key service answers, and never another
      owner's. */
  lemma ReadOutcome(s: CloudState, kms: Kms, owner: Owner, id: MemId)
    ensures
      var d := GetRecord(s, kms, owner, id);
      && (d == Done(None) <==> owner.Cloud? && !(id in s.records && s.records[id].owner == owner))
      && (d.Done? && d.value.Some? <==>
            && owner.Cloud? && id in s.records && s.records[id].owner == owner
            && s.records[id].id.Mem?
            && ContentMeaning(kms.master, s.records[id]).Some? && ProvenanceMeaning(kms.master, s.records[id]).Some?
            && kms.unwraps(owner.tenant, s.records[id].content.keyVersion)
            && kms.unwraps(owner.tenant, s.records[id].provenance.keyVersion))
      && (d.Done? && d.value.Some? ==>
            && d.value.value.record == s.records[id]
            && ContentMeaning(kms.master, s.records[id]) == Some(d.value.value.content)
            && ProvenanceMeaning(kms.master, s.records[id]) == Some(d.value.value.provenance))
  {
    hide Decrypt, Meaning;
    if id in s.records && s.records[id].owner == owner && owner.Cloud? && s.records[id].id.Mem? {
      var r := s.records[id];
      DecryptIsMeaning(kms, owner.tenant, r.id.uuid, ContentField, r.content);
      DecryptIsMeaning(kms, owner.tenant, r.id.uuid, ProvenanceField, r.provenance);
    }
  }

  /** Every record but one is as it was. */
  ghost predicate OthersSame(s: CloudState, t: CloudState, id: MemId) {
    && (forall k :: k != id ==>
         (k in t.records <==> k in s.records) && (k in s.records ==> t.records[k] == s.records[k]))
    && (forall k :: k != id ==>
          (k in t.embeddings <==> k in s.embeddings) && (k in s.embeddings ==> t.embeddings[k] == s.embeddings[k]))
  }

  // ---------------------------------------------------------------- writing

  /** A new active record at version 1, with the fields of the payload. */
  ghost predicate WrittenAs(r: CloudRecord, p: WritePayload, id: MemId, now: Time) {
    && r.id == id && r.owner == p.owner && r.kind == p.kind && r.space == p.space && r.importance == p.importance
    && r.confidence == p.confidence && r.state == "active" && r.version == 1 && r.createdAt == now && r.updatedAt == now
  }

  /** A write under a new key succeeds exactly when the key service answers, and its owner then reads
      back the content and the provenance it gave. */
  lemma WriteOutcome(s: CloudState, env: CloudEnv, p: WritePayload)
    requires CloudWriteKey(p.owner, p.key) !in s.writeKeys
    ensures
      var (t, answer) := WriteOp(s, env, p);
      var id := Mem(env.freshId);
      && (answer.Done? <==> KeysAnswer(s, env.kms, p.owner))
      && (answer.Done? ==>
            && Reads(t, env.kms, p.owner, id, p.content, p.provenance) && WrittenAs(t.records[id], p, id, env.now)
            && ContentMeaning(env.kms.master, t.records[id]) == Some(p.content)
            && ProvenanceMeaning(env.kms.master, t.records[id]) == Some(p.provenance)
            && answer.value == Plain(t.records[id], p.content, p.provenance) && OthersSame(s, t, id)
            && t.embeddings == s.embeddings && t.tombstones == s.tombstones && t.forgetKeys == s.forgetKeys
            && t.keyVersion == s.keyVersion && t.records[id].content.keyVersion == s.keyVersion
            && t.writeKeys == s.writeKeys[CloudWriteKey(p.owner, p.key) := id])
      && (!p.owner.Cloud? || s.keyVersion < 1 || !env.kms.wraps(p.owner.tenant, s.keyVersion) ==> t == s)
  {
  }

  /** After any steady run a record that is still at version 1 still has the content it was written
      with. */
  lemma WrittenContentStays(s: CloudState, env: CloudEnv, p: WritePayload, calls: seq<CloudCall>)
    requires CloudInv(s) && UnusedId(s, Mem(env.freshId)) && CloudWriteKey(p.owner, p.key) !in s.writeKeys
    requires KeysAnswer(s, env.kms, p.owner) && LegalCalls(WriteOp(s, env, p).0, calls)
    requires Mem(env.freshId) in WriteOp(s, env, p).0.records
    requires SteadyRun(calls, env.kms.master, WriteOp(s, env, p).0.records[Mem(env.freshId)])
    ensures
      var u := Play(WriteOp(s, env, p).0, calls);
      var id := Mem(env.freshId);
      id in u.records && u.records[id].version == 1 ==>
        u.records[id].owner == p.owner && ContentMeaning(env.kms.master, u.records[id]) == Some(p.content)
  {
    WriteOutcome(s, env, p);
    WriteKeepsInv(s, env, p);
    hide WriteOp, Play, LegalCalls, SteadyRun, ContentMeaning, ProvenanceMeaning, CloudInv, UnusedId, KeysAnswer;
    var t := WriteOp(s, env, p).0;
    RunFollows(t, calls, env.kms.master, t.records[Mem(env.freshId)]);
  }

  /** A repeated write changes nothing and answers what reading the record under its key answers. */
  lemma RepeatedWrite(s: CloudState, env: CloudEnv, p: WritePayload)
    requires CloudWriteKey(p.owner, p.key) in s.writeKeys && p.owner.Cloud?
    ensures
      var (t, answer) := WriteOp(s, env, p);
      var id := s.writeKeys[CloudWriteKey(p.owner, p.key)];
      && t == s && (id !in s.records ==> answer == Failed(MissingKey))
      && (id in s.records && s.records[id].owner == p.owner ==>
            var d := GetRecord(s, env.kms, p.owner, id);
            (answer.Done? <==> d.Done?) && (answer.Done? ==> d == Done(Some(answer.value))))
  {
    hide Decrypt;
  }

  // ---------------------------------------------------------------- updating

  ghost predicate FieldIs<T>(value: T, given: Option<T>, was: T) {
    (given.Some? ==> value == given.value) && (given.None? ==> value == was)
  }

  /** The next version of the record: every field the patch gives, every other as before. */
  ghost predicate PatchedAs(r: CloudRecord, was: CloudRecord, p: Patch, now: Time) {
    && r.id == was.id && r.owner == was.owner && r.version == was.version + 1 && r.createdAt == was.createdAt
    && r.updatedAt == now && r.provenance == was.provenance
    && FieldIs(r.kind, p.kind, was.kind) && FieldIs(r.importance, p.importance, was.importance)
    && FieldIs(r.confidence, p.confidence, was.confidence) && FieldIs(r.state, p.state, was.state)
    && r.space == (if p.space.Some? then p.space else was.space)
    && (p.content.None? ==> r.content == was.content)
  }

  /** An update of the owner's record at its current version stores the patched record, drops its vector
      and touches nothing else; any other is refused without a trace. */
  lemma UpdateOutcome(s: CloudState, env: CloudEnv, p: UpdatePayload)
    requires IdsMatch(s)
    ensures
      var (t, answer) := UpdateOp(s, env, p);
      var found := p.id in s.records && s.records[p.id].owner == p.owner;
      && (!found ==> answer == Failed(MissingKey) && t == s)
      && (found && s.records[p.id].version != p.expectedVersion ==> answer == Failed(BadValue) && t == s)
      && (found && s.records[p.id].version == p.expectedVersion && p.id.Mem? && KeysAnswer(s, env.kms, p.owner) ==>
            && p.id in t.records && PatchedAs(t.records[p.id], s.records[p.id], p.patch, env.now)
            && (p.patch.content.Some? ==> ContentMeaning(env.kms.master, t.records[p.id]) == p.patch.content)
            && ProvenanceMeaning(env.kms.master, t.records[p.id]) == ProvenanceMeaning(env.kms.master, s.records[p.id])
            && OthersSame(s, t, p.id) && p.id !in t.embeddings
            && t.(records := s.records, embeddings := s.embeddings) == s)
  {
    hide Read;
  }

  // ---------------------------------------------------------------- vectors

  /** A vector is stored exactly for the owner's active record at the expected version. */
  lemma StoreEmbeddingOutcome(s: CloudState, owner: Owner, id: MemId, version: int, values: Vector)
    ensures
      var (t, answer) := StoreEmbeddingOp(s, owner, id, version, values);
      && (answer == Done(true) <==>
            && owner.Cloud? && id in s.records && s.records[id].owner == owner && s.records[id].state == "active"
            && s.records[id].version == version)
      && (answer == Done(true) ==> t == s.(embeddings := s.embeddings[id := Embedding(owner, version, values)]))
      && (answer != Done(true) ==> t == s) && (answer.Failed? <==> !owner.Cloud?)
  {
  }

  // ---------------------------------------------------------------- deletion

  /** A forget answers true exactly for the owner's record when it was not asked for before; the record
      and its vector are gone and the deletion is in the ledger with its time. */
  lemma ForgetOutcome(s: CloudState, now: Time, owner: Owner, id: MemId)
    ensures
      var (t, forgotten) := ForgetOp(s, now, owner, id);
      && (forgotten <==> OwnedId(owner, id) !in s.forgetKeys && id in s.records && s.records[id].owner == owner)
      && t.forgetKeys == s.forgetKeys + {OwnedId(owner, id)} && t.writeKeys == s.writeKeys
           && t.keyVersion == s.keyVersion
      && OthersSame(s, t, id)
      && (forgotten ==>
            id !in t.records && id !in t.embeddings && t.tombstones == s.tombstones[OwnedId(owner, id) := now])
      && (!forgotten ==> t.records == s.records && t.embeddings == s.embeddings && t.tombstones == s.tombstones)
  {
  }

  /** Deleting an owner removes exactly that owner's records, vectors and write keys, and lists every one
      of the records in the ledger. */
  lemma DeleteOwnerOutcome(s: CloudState, now: Time, owner: Owner)
    ensures
      var (t, answer) := DeleteOwnerOp(s, now, owner);
      && (answer.Failed? <==> !owner.Cloud?) && (answer.Failed? ==> t == s)
      && (answer.Done? ==>
            && (forall id :: id in t.records <==> id in s.records && s.records[id].owner != owner)
            && (forall id :: id in t.records ==> t.records[id] == s.records[id])
            && (forall id :: id in t.embeddings <==>
                 id in s.embeddings && !(id in s.records && s.records[id].owner == owner))
            && (forall id :: id in t.embeddings ==> t.embeddings[id] == s.embeddings[id])
            && (forall k :: k in t.tombstones <==> k in s.tombstones || Buried(s, owner, k))
            && (forall k :: k in t.tombstones ==>
                 t.tombstones[k] == if Buried(s, owner, k) then now else s.tombstones[k])
            && (forall k :: k in t.forgetKeys <==> k in s.forgetKeys || Buried(s, owner, k))
            && (forall w :: w in t.writeKeys <==> w in s.writeKeys && w.owner != owner)
            && (forall w :: w in t.writeKeys ==> t.writeKeys[w] == s.writeKeys[w])
            && answer.value == |s.records| - |t.records|)
  {
    var t := DeleteOwnerOp(s, now, owner).0;
    forall k ensures k in OwnedKeys(owner, Owned(s, owner)) <==> Buried(s, owner, k) {
      if Buried(s, owner, k) {
        assert k.id in Owned(s, owner) && k == OwnedId(owner, k.id);
      }
    }
    CountOwned(s, owner);
    hide OwnedKeys;
  }

  lemma CountOwned(s: CloudState, owner: Owner)
    ensures |Owned(s, owner)| == |s.records| - |s.records - Owned(s, owner)|
  {
    var rest := s.records - Owned(s, owner);
    assert s.records.Keys == rest.Keys + Owned(s, owner) && rest.Keys !! Owned(s, owner);
    assert |s.records.Keys| == |rest.Keys| + |Owned(s, owner)|;
    assert |s.records.Keys| == |s.records| && |rest.Keys| == |rest|;
  }

  ghost predicate Buried(s: CloudState, owner: Owner, k: OwnedId) {
    k.owner == owner && k.id in s.records && s.records[k.id].owner == owner
  }

  // ---------------------------------------------------------------- restoring

  /** An entry names this owner and id. */
  ghost predicate Names(entries: seq<LedgerEntry>, owner: Owner, id: MemId) {
    exists i :: 0 <= i < |entries| && entries[i].LedgerEntry? && entries[i].owner == owner && entries[i].id == id
  }

  ghost predicate RestoreAllowed(s: CloudState, snapshot: Snapshot, entries: seq<LedgerEntry>) {
    && snapshot.formatKnown && snapshot.records.Some? && (forall k :: k in s.tombstones ==> k.owner.Cloud?)
    && (forall i :: 0 <= i < |entries| ==> entries[i].LedgerEntry? && entries[i].owner.Cloud?)
    && forall id :: id in snapshot.records.value ==>
         var raw := snapshot.records.value[id];
         raw.Whole? && raw.record.owner.Cloud? && raw.record.id == id
  }

  /** The restored tables: the snapshot's records that no ledger entry names, and the vectors and write
      keys that still fit them. */
  ghost predicate Restored(s: CloudState, t: CloudState, m: map<MemId, RawRecord>, entries: seq<LedgerEntry>) {
    && (forall id :: id in t.records <==>
          && id in m && m[id].Whole? && OwnedId(m[id].record.owner, id) !in s.tombstones
          && !Names(entries, m[id].record.owner, id))
    && (forall id :: id in t.records ==> m[id].Whole? && t.records[id] == m[id].record)
    && (forall id :: id in t.embeddings <==>
          && id in s.embeddings && id in t.records && s.embeddings[id].owner == t.records[id].owner
          && s.embeddings[id].sourceVersion == t.records[id].version)
    && (forall id :: id in t.embeddings ==> t.embeddings[id] == s.embeddings[id])
    && (forall w :: w in t.writeKeys <==>
          w in s.writeKeys && s.writeKeys[w] in t.records && t.records[s.writeKeys[w]].owner == w.owner)
    && (forall w :: w in t.writeKeys ==> t.writeKeys[w] == s.writeKeys[w])
  }

  lemma LedgerNames(tombstones: map<OwnedId, Time>, entries: seq<LedgerEntry>, k: OwnedId)
    requires ValidEntries(entries)
    ensures k in Ledger(tombstones, entries) <==> k in tombstones || Names(entries, k.owner, k.id)
  {
    LedgerOrigin(tombstones, entries, k);
    assert forall i :: 0 <= i < |entries| ==> TakenIn(entries, i);
    hide Ledger, TakenIn;
  }

  /** A restore succeeds exactly for a known format, a well-formed ledger and whole records of well-formed
      owners under their own ids. */
  lemma RestoreOutcome(s: CloudState, snapshot: Snapshot, entries: seq<LedgerEntry>)
    ensures
      var (t, answer) := RestoreOp(s, snapshot, entries);
      && (answer.Done? <==> RestoreAllowed(s, snapshot, entries))
      && (answer.Failed? ==> t == s.(tombstones := t.tombstones))
      && t.forgetKeys == s.forgetKeys && t.keyVersion == s.keyVersion
      && (answer.Done? ==>
            && Restored(s, t, snapshot.records.value, entries) && answer.value == |t.records|
            && (forall k :: k in t.tombstones <==> k in s.tombstones || Names(entries, k.owner, k.id)))
  {
    var (t, answer) := RestoreOp(s, snapshot, entries);
    hide Ledger, Names;
    if answer.Done? {
      forall k ensures k in t.tombstones <==> k in s.tombstones || Names(entries, k.owner, k.id) {
        LedgerNames(s.tombstones, entries, k);
      }
    }
  }

  // ---------------------------------------------------------------- key rotation

  /** The field is at the version already, or can be read and sealed again. */
  ghost predicate Movable(kms: Kms, owner: Owner, e: Envelope, meaning: Option<string>, version: int) {
    || e.keyVersion == version
    || (owner.Cloud? && meaning.Some? && kms.unwraps(owner.tenant, e.keyVersion) && kms.wraps(owner.tenant, version))
  }

  lemma MovableField(env: CloudEnv, r: CloudRecord, field: Field, version: int)
    requires r.owner.Cloud? && r.id.Mem? && version >= 1
    ensures
      var e := FieldOf(r, field);
      RewrapField(env, r, field, version).Done? <==>
        Movable(env.kms, r.owner, e, Meaning(env.kms.master, r.owner.tenant, r.id.uuid, field, e), version)
  {
    hide Decrypt, Meaning;
    DecryptIsMeaning(env.kms, r.owner.tenant, r.id.uuid, field, FieldOf(r, field));
  }

  /** A rewrap succeeds exactly when the version does not go back and every field of every record is at
      it already or can be moved to it. */
  lemma RewrapAllowedIff(s: CloudState, env: CloudEnv, version: int)
    ensures RewrapOp(s, env, version).1.Done? <==>
              && version >= 1 && version >= s.keyVersion
              && forall id :: id in s.records ==>
                   var r := s.records[id];
                   && r.owner.Cloud? && r.id.Mem?
                   && Movable(env.kms, r.owner, r.content, ContentMeaning(env.kms.master, r), version)
                   && Movable(env.kms, r.owner, r.provenance, ProvenanceMeaning(env.kms.master, r), version)
  {
    hide RewrapField, Meaning, Movable;
    if version >= 1 && version >= s.keyVersion {
      forall id | id in s.records
        ensures RewrapRecord(env, s.records[id], version).Done? <==>
                  var r := s.records[id];
                  && r.owner.Cloud? && r.id.Mem?
                  && Movable(env.kms, r.owner, r.content, ContentMeaning(env.kms.master, r), version)
                  && Movable(env.kms, r.owner, r.provenance, ProvenanceMeaning(env.kms.master, r), version)
      {
        var r := s.records[id];
        if r.owner.Cloud? && r.id.Mem? {
          MovableField(env, r, ContentField, version);
          MovableField(env, r, ProvenanceField, version);
        }
      }
    }
  }
}
