/** What holds of the cloud store over whole runs: vectors stay bound to versions, deletions are
    final, key rotation keeps meanings. */
module CloudSafety {
  import opened Domain
  import opened Envelope
  import opened CloudStore

  // ---------------------------------------------------------------- vectors stay bound

  ghost predicate IdsMatch(s: CloudState) {
    forall id :: id in s.records ==> s.records[id].id == id
  }

  /** Every vector has a live record with the same owner and version. */
  ghost predicate VectorsBound(s: CloudState) {
    forall id :: id in s.embeddings ==> BoundVector(s.records, id, s.embeddings[id])
  }

  ghost predicate CloudInv(s: CloudState) {
    IdsMatch(s) && VectorsBound(s)
  }

  lemma WriteKeepsInv(s: CloudState, env: CloudEnv, p: WritePayload)
    requires CloudInv(s) && UnusedId(s, Mem(env.freshId))
    ensures CloudInv(WriteOp(s, env, p).0)
  {
  }

  lemma UpdateKeepsInv(s: CloudState, env: CloudEnv, p: UpdatePayload)
    requires CloudInv(s)
    ensures CloudInv(UpdateOp(s, env, p).0)
  {
    hide PatchedContent, Read;
  }

  lemma RewrapRecordFrame(env: CloudEnv, r: CloudRecord, version: int)
    requires RewrapRecord(env, r, version).Done?
    ensures
      var n := RewrapRecord(env, r, version).value;
      n == r.(content := n.content, provenance := n.provenance)
  {
    hide RewrapField;
  }

  lemma RewrapKeepsInv(s: CloudState, env: CloudEnv, version: int)
    requires CloudInv(s)
    ensures CloudInv(RewrapOp(s, env, version).0)
  {
    hide RewrapRecord, Outdated;
    forall id | id in s.records && RewrapRecord(env, s.records[id], version).Done?
      ensures
        var n := RewrapRecord(env, s.records[id], version).value;
        n.id == s.records[id].id && n.owner == s.records[id].owner && n.version == s.records[id].version
    {
      RewrapRecordFrame(env, s.records[id], version);
    }
  }

  lemma RestoreKeepsInv(s: CloudState, snapshot: Snapshot, entries: seq<LedgerEntry>)
    requires CloudInv(s)
    ensures CloudInv(RestoreOp(s, snapshot, entries).0)
  {
    hide Ledger;
  }

  /** Every operation, returned or raised, keeps vectors bound to live versions. */
  lemma StepKeepsVectorsBound(s: CloudState, env: CloudEnv, step: CloudStep)
    requires CloudInv(s) && UnusedId(s, Mem(env.freshId))
    ensures CloudInv(Next(s, env, step))
  {
    hide WriteOp, UpdateOp, RestoreOp, RewrapOp, UnusedId, OwnedKeys;
    match step
    case WriteStep(p) => WriteKeepsInv(s, env, p);
    case UpdateStep(p) => UpdateKeepsInv(s, env, p);
    case RestoreStep(snapshot, entries) => RestoreKeepsInv(s, snapshot, entries);
    case RewrapStep(version) => RewrapKeepsInv(s, env, version);
    case _ =>
  }

  lemma LegalPrefix(s: CloudState, calls: seq<CloudCall>)
    requires LegalCalls(s, calls) && calls != []
    ensures LegalCalls(s, calls[..|calls| - 1])
    ensures UnusedId(Play(s, calls[..|calls| - 1]), Mem(calls[|calls| - 1].env.freshId))
  {
    hide Play, UnusedId;
    var rest := calls[..|calls| - 1];
    forall i | 0 <= i < |rest| ensures UnusedId(Play(s, rest[..i]), Mem(rest[i].env.freshId)) {
      assert rest[..i] == calls[..i];
    }
  }

  lemma {:induction false} VectorsAlwaysBound(s: CloudState, calls: seq<CloudCall>)
    requires CloudInv(s) && LegalCalls(s, calls)
    ensures CloudInv(Play(s, calls))
    decreases |calls|
  {
    if calls != [] {
      hide Next, CloudInv, LegalCalls, UnusedId;
      LegalPrefix(s, calls);
      VectorsAlwaysBound(s, calls[..|calls| - 1]);
      StepKeepsVectorsBound(Play(s, calls[..|calls| - 1]), calls[|calls| - 1].env, calls[|calls| - 1].step);
    }
  }

  // ---------------------------------------------------------------- content is tied to the version

  /** What the content of a stored record means to the holder of the master key. */
  function ContentMeaning(master: nat, r: CloudRecord): Option<string> {
    if r.owner.Cloud? && r.id.Mem? then Meaning(master, r.owner.tenant, r.id.uuid, ContentField, r.content) else None
  }

  function ProvenanceMeaning(master: nat, r: CloudRecord): Option<string> {
    if r.owner.Cloud? && r.id.Mem? then Meaning(master, r.owner.tenant, r.id.uuid, ProvenanceField, r.provenance)
    else None
  }

  /** `b` is a later form of `a`: same owner, version not lower, and at the same version the same
      content and state. */
  ghost predicate Succeeds(master: nat, a: CloudRecord, b: CloudRecord) {
    && a.id == b.id && a.owner == b.owner && a.version <= b.version
    && (a.version == b.version ==> a.state == b.state && ContentMeaning(master, a) == ContentMeaning(master, b))
  }

  /** The record, if there is one, is a later form of `r`. */
  ghost predicate Follows(s: CloudState, master: nat, r: CloudRecord) {
    r.id in s.records ==> Succeeds(master, r, s.records[r.id])
  }

  lemma RewrapMeaningOne(env: CloudEnv, r: CloudRecord, version: int)
    requires RewrapRecord(env, r, version).Done?
    ensures
      var n := RewrapRecord(env, r, version).value;
      && ContentMeaning(env.kms.master, n) == ContentMeaning(env.kms.master, r)
      && ProvenanceMeaning(env.kms.master, n) == ProvenanceMeaning(env.kms.master, r)
      && n.content.keyVersion == version && n.provenance.keyVersion == version
      && (r.content.keyVersion == version ==> n.content == r.content)
      && (r.provenance.keyVersion == version ==> n.provenance == r.provenance)
  {
    hide Rewrap, Meaning;
    if r.content.keyVersion != version {
      RewrapKeepsMeaning(env.kms, r.owner.tenant, r.id.uuid, ContentField, r.content, version,
                         env.dek(r.id, ContentField), env.nonce(r.id, ContentField));
    }
    if r.provenance.keyVersion != version {
      RewrapKeepsMeaning(env.kms, r.owner.tenant, r.id.uuid, ProvenanceField, r.provenance, version,
                         env.dek(r.id, ProvenanceField), env.nonce(r.id, ProvenanceField));
    }
  }

  lemma RewrapFollows(s: CloudState, env: CloudEnv, version: int, r: CloudRecord)
    requires CloudInv(s) && Follows(s, env.kms.master, r)
    ensures Follows(RewrapOp(s, env, version).0, env.kms.master, r)
  {
    hide RewrapRecord, Outdated, ContentMeaning;
    if r.id in s.records && Rewrappable(s, env, version) {
      RewrapRecordFrame(env, s.records[r.id], version);
      RewrapMeaningOne(env, s.records[r.id], version);
    }
  }

  /** Every operation keeps following; of a restore, that its snapshot does. */
  lemma StepFollows(s: CloudState, env: CloudEnv, step: CloudStep, r: CloudRecord)
    requires CloudInv(s) && Mem(env.freshId) != r.id && Harmless(step, env.kms.master, r)
    requires Follows(s, env.kms.master, r)
    ensures Follows(Next(s, env, step), env.kms.master, r)
  {
    hide RewrapOp, RestoreOp, ContentMeaning, Read, PatchedContent, VectorsBound;
    match step
    case RestoreStep(snapshot, entries) => RestoreFollows(s, snapshot, entries, env.kms.master, r);
    case RewrapStep(version) => RewrapFollows(s, env, version, r);
    case ForgetStep(_, _) =>
    case DeleteOwnerStep(_) =>
    case WriteStep(p) =>
    case UpdateStep(p) =>
    case EmbeddingStep(_, _, _, _) =>
    case RotateStep(_) =>
  }

  /** If the step restores a record in the place of `r`, it is a later form of it. */
  ghost predicate Harmless(step: CloudStep, master: nat, r: CloudRecord) {
    step.RestoreStep? && step.snapshot.records.Some? && r.id in step.snapshot.records.value ==>
      var raw := step.snapshot.records.value[r.id];
      raw.Whole? ==> Succeeds(master, r, raw.record)
  }

  lemma RestoreFollows(s: CloudState, snapshot: Snapshot, entries: seq<LedgerEntry>, master: nat, r: CloudRecord)
    requires Follows(s, master, r) && Harmless(RestoreStep(snapshot, entries), master, r)
    ensures Follows(RestoreOp(s, snapshot, entries).0, master, r)
  {
    hide Ledger, Succeeds, KeepVectors, KeepKeys;
  }

  /** A run under one master key that restores nothing but later forms of `r` in its place. The id of
      `r` was drawn before, so it is not drawn again. */
  ghost predicate SteadyRun(calls: seq<CloudCall>, master: nat, r: CloudRecord) {
    forall i :: 0 <= i < |calls| ==>
      Harmless(calls[i].step, master, r) && calls[i].env.kms.master == master && Mem(calls[i].env.freshId) != r.id
  }

  lemma {:induction false} RunFollows(s: CloudState, calls: seq<CloudCall>, master: nat, r: CloudRecord)
    requires CloudInv(s) && LegalCalls(s, calls) && SteadyRun(calls, master, r) && Follows(s, master, r)
    ensures Follows(Play(s, calls), master, r)
    decreases |calls|
  {
    if calls != [] {
      hide Next, CloudInv, LegalCalls, UnusedId, Follows, Harmless;
      var rest := calls[..|calls| - 1];
      LegalPrefix(s, calls);
      RunFollows(s, rest, master, r);
      VectorsAlwaysBound(s, rest);
      StepFollows(Play(s, rest), calls[|calls| - 1].env, calls[|calls| - 1].step, r);
    }
  }

  // ---------------------------------------------------------------- re-embedding

  /** The vector at `id` is the embedding of the record's current content at its current version. */
  ghost predicate VectorFresh(s: CloudState, master: nat, owner: Owner, id: MemId, embed: string -> Option<Vector>) {
    && Live(s, owner, id) && id in s.embeddings
    && s.embeddings[id].owner == owner && s.embeddings[id].sourceVersion == s.records[id].version
    && ContentMeaning(master, s.records[id]).Some?
    && embed(ContentMeaning(master, s.records[id]).value) == Some(s.embeddings[id].values)
  }

  /** `reembed_memory` read the record at `s`, other operations ran, none of which restored another
      form of the record, and now it stores at `t`. If the store accepts, the vector is fresh; if
      not, no vector changed. */
  lemma ReembedIsFresh(s: CloudState, calls: seq<CloudCall>, kms: Kms, owner: Owner, id: MemId, version: int,
                       embed: string -> Option<Vector>, values: Vector)
    requires CloudInv(s) && LegalCalls(s, calls)
    requires GetRecord(s, kms, owner, id).Done? && GetRecord(s, kms, owner, id).value.Some?
    requires SteadyRun(calls, kms.master, s.records[id])
    requires
      var plain := GetRecord(s, kms, owner, id).value.value;
      plain.record.version == version && embed(plain.content) == Some(values)
    ensures
      var t := Play(s, calls);
      var (u, answer) := StoreEmbeddingOp(t, owner, id, version, values);
      && answer.Done?
      && (answer.value ==> VectorFresh(u, kms.master, owner, id, embed))
      && (!answer.value ==> u == t)
      && (answer.value <==> AcceptsVector(t, owner, id, version))
  {
    hide Play, LegalCalls, SteadyRun, Decrypt;
    var r := s.records[id];
    var t := Play(s, calls);
    ReadIsMeaning(kms, r);
    RunFollows(s, calls, kms.master, r);
  }

  lemma ReadIsMeaning(kms: Kms, r: CloudRecord)
    requires Read(kms, r).Done?
    ensures ContentMeaning(kms.master, r) == Some(Read(kms, r).value.content)
    ensures ProvenanceMeaning(kms.master, r) == Some(Read(kms, r).value.provenance)
  {
    hide Decrypt, Meaning;
    DecryptIsMeaning(kms, r.owner.tenant, r.id.uuid, ContentField, r.content);
    DecryptIsMeaning(kms, r.owner.tenant, r.id.uuid, ProvenanceField, r.provenance);
  }

  /** Whatever runs between read and store, other restores included: if the store accepts, the vector
      is fresh exactly when the content of that moment embeds to the same vector as the content
      read. */
  lemma FreshnessDecided(s: CloudState, calls: seq<CloudCall>, kms: Kms, owner: Owner, id: MemId,
                         embed: string -> Option<Vector>, values: Vector)
    requires GetRecord(s, kms, owner, id).Done? && GetRecord(s, kms, owner, id).value.Some?
    requires embed(GetRecord(s, kms, owner, id).value.value.content) == Some(values)
    requires AcceptsVector(Play(s, calls), owner, id, s.records[id].version)
    ensures
      var t := Play(s, calls);
      var (u, answer) := StoreEmbeddingOp(t, owner, id, s.records[id].version, values);
      var meaning := ContentMeaning(kms.master, t.records[id]);
      && answer == Done(true)
      && (VectorFresh(u, kms.master, owner, id, embed) <==> meaning.Some? && embed(meaning.value) == Some(values))
  {
    hide ContentMeaning, Play;
  }

  /** An update of the content alone. */
  function NewContent(owner: Owner, id: MemId, version: int, content: string): UpdatePayload {
    UpdatePayload(owner, id, version, Patch(Some(content), None, None, None, None, None))
  }

  /** The key service answers for this tenant at the store's key version. */
  predicate KeysAnswer(s: CloudState, kms: Kms, owner: Owner) {
    owner.Cloud? && s.keyVersion >= 1
    && kms.wraps(owner.tenant, s.keyVersion) && kms.unwraps(owner.tenant, s.keyVersion)
  }

  /** Under such a key service an update of a readable record succeeds and gives the new content the
      next version. */
  lemma UpdateReadable(s: CloudState, env: CloudEnv, owner: Owner, id: MemId, content: string)
    requires IdsMatch(s) && KeysAnswer(s, env.kms, owner)
    requires GetRecord(s, env.kms, owner, id).Done? && GetRecord(s, env.kms, owner, id).value.Some?
    ensures
      var (t, answer) := UpdateOp(s, env, NewContent(owner, id, s.records[id].version, content));
      var read := GetRecord(t, env.kms, owner, id);
      && answer.Done? && read.Done? && read.value.Some? && read.value.value.content == content
      && t.records[id].version == s.records[id].version + 1 && t.records[id].state == s.records[id].state
      && t.keyVersion == s.keyVersion && t.tombstones == s.tombstones && t.records.Keys == s.records.Keys
  {
  }

  /** Two updates that start from the same backup give two contents the same version. */
  lemma RestoreDefeatsFreshness(s: CloudState, snapshot: Snapshot, env: CloudEnv, owner: Owner, id: MemId,
                                b: string, c: string, embed: string -> Option<Vector>, values: Vector)
    requires CloudInv(s) && WellOwned(s) && LedgerClear(s) && IsBackup(s, snapshot) && KeysAnswer(s, env.kms, owner)
    requires GetRecord(s, env.kms, owner, id).Done? && GetRecord(s, env.kms, owner, id).value.Some?
    requires s.records[id].state == "active" && embed(b) == Some(values) && embed(c) != Some(values)
    ensures
      var v := s.records[id].version;
      var read := UpdateOp(s, env, NewContent(owner, id, v, b)).0;
      var calls := [CloudCall(env, RestoreStep(snapshot, [])), CloudCall(env, UpdateStep(NewContent(owner, id, v, c)))];
      var (u, answer) := StoreEmbeddingOp(Play(read, calls), owner, id, v + 1, values);
      && GetRecord(read, env.kms, owner, id).Done? && GetRecord(read, env.kms, owner, id).value.Some?
      && GetRecord(read, env.kms, owner, id).value.value.content == b && read.records[id].version == v + 1
      && answer == Done(true) && !VectorFresh(u, env.kms.master, owner, id, embed)
  {
    var v := s.records[id].version;
    var read := UpdateOp(s, env, NewContent(owner, id, v, b)).0;
    var restore := CloudCall(env, RestoreStep(snapshot, []));
    var update := CloudCall(env, UpdateStep(NewContent(owner, id, v, c)));
    UpdateReadable(s, env, owner, id, b);
    RestoreBringsBack(s, read, snapshot);
    var back := RestoreOp(read, snapshot, []).0;
    UpdateReadable(back, env, owner, id, c);
    TwoCalls(read, restore, update);
    var t := UpdateOp(back, env, NewContent(owner, id, v, c)).0;
    ReadIsMeaning(env.kms, t.records[id]);
    hide UpdateOp, RestoreOp, Play, ContentMeaning, Read, CloudInv, WellOwned, LedgerClear, IsBackup, KeysAnswer;
  }

  lemma RestoreBringsBack(s: CloudState, later: CloudState, snapshot: Snapshot)
    requires CloudInv(s) && WellOwned(s) && LedgerClear(s) && IsBackup(s, snapshot) && later.tombstones == s.tombstones
    ensures
      var (t, answer) := RestoreOp(later, snapshot, []);
      answer.Done? && t.records == s.records && t.keyVersion == later.keyVersion && t.tombstones == s.tombstones
  {
    assert ValidSnapshot(WholeRecords(s.records));
    assert Surviving(WholeRecords(s.records), s.tombstones) == s.records;
    hide ListsLedger, KeepVectors, KeepKeys, VectorsBound;
  }

  lemma TwoCalls(s: CloudState, a: CloudCall, b: CloudCall)
    ensures Play(s, [a, b]) == Next(Next(s, a.env, a.step), b.env, b.step)
  {
    hide Next;
    assert [a, b][..1] == [a] && [a][..0] == [];
    assert Play(s, [a]) == Next(s, a.env, a.step);
  }

  // ---------------------------------------------------------------- deletion is final

  /** Deleted: in the ledger, and not readable by that owner. */
  ghost predicate Deleted(s: CloudState, owner: Owner, id: MemId) {
    OwnedId(owner, id) in s.tombstones && !Live(s, owner, id)
  }

  lemma {:induction false} LedgerGrows(tombstones: map<OwnedId, Time>, entries: seq<LedgerEntry>)
    ensures forall k :: k in tombstones ==> k in Ledger(tombstones, entries)
    decreases |entries|
  {
    if entries != [] {
      LedgerGrows(tombstones, entries[..|entries| - 1]);
    }
  }

  /** No operation brings a deleted record back, whatever snapshot is restored and whether the
      restore succeeds. */
  lemma StepKeepsDeleted(s: CloudState, env: CloudEnv, step: CloudStep, owner: Owner, id: MemId)
    requires Deleted(s, owner, id) && UnusedId(s, Mem(env.freshId))
    ensures Deleted(Next(s, env, step), owner, id)
  {
    hide Read, PatchedContent, Rewrap, Ledger, NewRecord, RewrapRecord, KeepVectors, KeepKeys;
    match step
    case RestoreStep(snapshot, entries) => LedgerGrows(s.tombstones, entries);
    case RewrapStep(version) =>
      if id in s.records && Rewrappable(s, env, version) {
        RewrapRecordFrame(env, s.records[id], version);
      }
    case WriteStep(p) => NewRecordId(env, p, s.keyVersion);
    case _ =>
  }

  lemma NewRecordId(env: CloudEnv, p: WritePayload, keyVersion: int)
    ensures NewRecord(env, p, keyVersion).Done? ==> NewRecord(env, p, keyVersion).value.id == Mem(env.freshId)
  {
  }

  lemma {:induction false} RunKeepsDeleted(s: CloudState, calls: seq<CloudCall>, owner: Owner, id: MemId)
    requires Deleted(s, owner, id) && LegalCalls(s, calls)
    ensures Deleted(Play(s, calls), owner, id)
    decreases |calls|
  {
    if calls != [] {
      hide Next, LegalCalls, UnusedId, Deleted;
      LegalPrefix(s, calls);
      RunKeepsDeleted(s, calls[..|calls| - 1], owner, id);
      StepKeepsDeleted(Play(s, calls[..|calls| - 1]), calls[|calls| - 1].env, calls[|calls| - 1].step, owner, id);
    }
  }

  /** After a record is forgotten, or its owner deleted, no later run lets that owner read it. */
  lemma DeletionIsFinal(s: CloudState, now: Time, owner: Owner, id: MemId, calls: seq<CloudCall>, kms: Kms,
                        byOwner: bool)
    requires owner.Cloud? && Live(s, owner, id)
    requires byOwner || ForgetOp(s, now, owner, id).1
    requires LegalCalls(if byOwner then DeleteOwnerOp(s, now, owner).0 else ForgetOp(s, now, owner, id).0, calls)
    ensures
      var t := Play(if byOwner then DeleteOwnerOp(s, now, owner).0 else ForgetOp(s, now, owner, id).0, calls);
      GetRecord(t, kms, owner, id) == Done(None)
  {
    var start := if byOwner then DeleteOwnerOp(s, now, owner).0 else ForgetOp(s, now, owner, id).0;
    if byOwner {
      assert id in Owned(s, owner);
      assert OwnedId(owner, id) in OwnedKeys(owner, Owned(s, owner));
    }
    assert Deleted(start, owner, id);
    hide Play, LegalCalls;
    RunKeepsDeleted(start, calls, owner, id);
  }

  // ---------------------------------------------------------------- ledger and live records

  ghost predicate LedgerClear(s: CloudState) {
    forall id :: id in s.records ==> OwnedId(s.records[id].owner, id) !in s.tombstones
  }

  /** A successful restore clears the live records of everything in the ledger, from any state. */
  lemma RestoreClears(s: CloudState, snapshot: Snapshot, entries: seq<LedgerEntry>)
    requires RestoreOp(s, snapshot, entries).1.Done?
    ensures LedgerClear(RestoreOp(s, snapshot, entries).0)
  {
    hide Ledger;
  }

  ghost predicate NamesLive(s: CloudState, e: LedgerEntry) {
    e.LedgerEntry? && Live(s, e.owner, e.id)
  }

  /** The entry is taken in: it and those before it are valid. */
  predicate TakenIn(entries: seq<LedgerEntry>, i: nat)
    requires i < |entries|
  {
    ValidEntries(entries[..i + 1])
  }

  /** The ledger holds what it held and the entries before the first invalid one. */
  lemma {:induction false} LedgerOrigin(tombstones: map<OwnedId, Time>, entries: seq<LedgerEntry>, k: OwnedId)
    ensures k in Ledger(tombstones, entries) <==>
              k in tombstones
              || exists i :: 0 <= i < |entries| && TakenIn(entries, i) && entries[i].owner == k.owner
                   && entries[i].id == k.id
    decreases |entries|
  {
    if entries != [] {
      var rest, n := entries[..|entries| - 1], |entries| - 1;
      LedgerOrigin(tombstones, rest, k);
      assert entries[..n + 1] == entries
          && (forall i :: 0 <= i < n ==> rest[i] == entries[i] && rest[..i + 1] == entries[..i + 1]);
      assert forall i :: 0 <= i < n ==> (TakenIn(rest, i) <==> TakenIn(entries, i));
      assert TakenIn(entries, n) <==> ValidEntries(entries);
      hide TakenIn, ValidEntries;
      if i :| 0 <= i < n && TakenIn(rest, i) && rest[i].owner == k.owner && rest[i].id == k.id {
        assert TakenIn(entries, i) && entries[i].owner == k.owner && entries[i].id == k.id;
      }
    }
  }

  /** A restore that is rejected after it has begun to extend the ledger, for an entry or for a
      record, leaves the live records clear of the ledger exactly when no entry before the first
      invalid one names one of them. */
  lemma RejectedRestoreClear(s: CloudState, snapshot: Snapshot, entries: seq<LedgerEntry>)
    requires LedgerClear(s) && ValidLedger(s.tombstones) && snapshot.formatKnown && snapshot.records.Some?
    requires RestoreOp(s, snapshot, entries).1.Failed?
    ensures
      var t := RestoreOp(s, snapshot, entries).0;
      && t.records == s.records
      && (LedgerClear(t) <==> forall i :: 0 <= i < |entries| && TakenIn(entries, i) ==> !NamesLive(s, entries[i]))
  {
    var t := RestoreOp(s, snapshot, entries).0;
    forall k ensures k in t.tombstones <==>
                k in s.tombstones
                || exists i :: 0 <= i < |entries| && TakenIn(entries, i) && entries[i].owner == k.owner
                     && entries[i].id == k.id
    {
      LedgerOrigin(s.tombstones, entries, k);
    }
    assert forall i :: 0 <= i < |entries| && TakenIn(entries, i) ==> ValidEntry(entries[..i + 1][i]);
    hide RestoreOp, Ledger, TakenIn, ValidEntries;
    if i :| 0 <= i < |entries| && TakenIn(entries, i) && NamesLive(s, entries[i]) {
      assert OwnedId(entries[i].owner, entries[i].id) in t.tombstones;
    }
  }

  /** Forgetting leaves the record unreadable unless this owner had asked for the same id before
      and it is live again; then it stays. */
  lemma ForgetErases(s: CloudState, now: Time, owner: Owner, id: MemId)
    ensures !Live(ForgetOp(s, now, owner, id).0, owner, id) <==>
        !(OwnedId(owner, id) in s.forgetKeys && Live(s, owner, id))
  {
  }

  /** That case is reachable: ask for an id that is absent, restore a snapshot that has it, ask
      again. */
  lemma EarlyForgetShields(now: Time, r: CloudRecord, keyVersion: int)
    requires r.owner.Cloud?
    ensures
      var empty := NewStore(keyVersion);
      var asked := ForgetOp(empty, now, r.owner, r.id).0;
      var restored := RestoreOp(asked, Snapshot(true, Some(map[r.id := Whole(r)]), []), []).0;
      Live(restored, r.owner, r.id) && Live(ForgetOp(restored, now, r.owner, r.id).0, r.owner, r.id)
  {
  }

  // ---------------------------------------------------------------- write keys

  /** A write key points at a record of its own owner, or at an id that is gone for good. */
  ghost predicate KeysOwned(s: CloudState) {
    forall w :: w in s.writeKeys ==>
      if s.writeKeys[w] in s.records then s.records[s.writeKeys[w]].owner == w.owner
      else exists k :: k in s.tombstones && k.id == s.writeKeys[w]
  }

  lemma RewrapKeepsKeysOwned(s: CloudState, env: CloudEnv, version: int)
    requires KeysOwned(s)
    ensures KeysOwned(RewrapOp(s, env, version).0)
  {
    hide RewrapRecord, Outdated;
    forall id | id in s.records && RewrapRecord(env, s.records[id], version).Done?
      ensures RewrapRecord(env, s.records[id], version).value.owner == s.records[id].owner
    {
      RewrapRecordFrame(env, s.records[id], version);
    }
  }

  lemma RestoreKeepsKeysOwned(s: CloudState, snapshot: Snapshot, entries: seq<LedgerEntry>)
    requires KeysOwned(s)
    ensures KeysOwned(RestoreOp(s, snapshot, entries).0)
  {
    hide Ledger;
    LedgerGrows(s.tombstones, entries);
    var (t, answer) := RestoreOp(s, snapshot, entries);
    if answer.Failed? {
      forall w | w in s.writeKeys && s.writeKeys[w] !in s.records
        ensures exists k :: k in t.tombstones && k.id == s.writeKeys[w]
      {
        var k :| k in s.tombstones && k.id == s.writeKeys[w];
        assert k in t.tombstones;
      }
    }
  }

  lemma BuryKeepsKeysOwned(s: CloudState, now: Time, owner: Owner, ids: set<MemId>)
    requires KeysOwned(s)
    ensures KeysOwned(BuryOwned(s, now, owner, ids))
  {
    var t := BuryOwned(s, now, owner, ids);
    forall w | w in t.writeKeys && t.writeKeys[w] !in t.records
      ensures exists k :: k in t.tombstones && k.id == t.writeKeys[w]
    {
      if t.writeKeys[w] in ids {
        assert OwnedId(owner, t.writeKeys[w]) in OwnedKeys(owner, ids);
        assert OwnedId(owner, t.writeKeys[w]) in t.tombstones;
      } else {
        var k :| k in s.tombstones && k.id == s.writeKeys[w];
        assert k in t.tombstones;
      }
    }
  }

  lemma StepKeepsKeysOwned(s: CloudState, env: CloudEnv, step: CloudStep)
    requires IdsMatch(s) && KeysOwned(s) && UnusedId(s, Mem(env.freshId))
    ensures KeysOwned(Next(s, env, step))
  {
    hide Read, PatchedContent, Encrypt, RestoreOp, RewrapOp;
    match step
    case RestoreStep(snapshot, entries) => RestoreKeepsKeysOwned(s, snapshot, entries);
    case RewrapStep(version) => RewrapKeepsKeysOwned(s, env, version);
    case DeleteOwnerStep(owner) => BuryKeepsKeysOwned(s, env.now, owner, Owned(s, owner));
    case ForgetStep(owner, id) => ForgetKeepsKeysOwned(s, env.now, owner, id);
    case WriteStep(p) =>
    case UpdateStep(p) =>
    case EmbeddingStep(_, _, _, _) =>
    case RotateStep(_) =>
  }

  lemma ForgetKeepsKeysOwned(s: CloudState, now: Time, owner: Owner, id: MemId)
    requires KeysOwned(s)
    ensures KeysOwned(ForgetOp(s, now, owner, id).0)
  {
    var t := ForgetOp(s, now, owner, id).0;
    forall w | w in t.writeKeys && t.writeKeys[w] !in t.records
      ensures exists k :: k in t.tombstones && k.id == t.writeKeys[w]
    {
      if t.writeKeys[w] in s.records {
        assert OwnedId(owner, id) in t.tombstones;
      } else {
        var k :| k in s.tombstones && k.id == s.writeKeys[w];
        assert k in t.tombstones;
      }
    }
  }

  /** Over any run a write key points at no record of another owner. */
  lemma {:induction false} RunKeepsKeysOwned(s: CloudState, calls: seq<CloudCall>)
    requires CloudInv(s) && KeysOwned(s) && LegalCalls(s, calls)
    ensures KeysOwned(Play(s, calls))
    decreases |calls|
  {
    if calls != [] {
      hide Next, CloudInv, LegalCalls, UnusedId, KeysOwned;
      var rest := calls[..|calls| - 1];
      LegalPrefix(s, calls);
      RunKeepsKeysOwned(s, rest);
      VectorsAlwaysBound(s, rest);
      IdsOf(Play(s, rest));
      StepKeepsKeysOwned(Play(s, rest), calls[|calls| - 1].env, calls[|calls| - 1].step);
    }
  }

  lemma IdsOf(s: CloudState)
    requires CloudInv(s)
    ensures IdsMatch(s)
  {
  }

  /** So a repeated write answers with a record of the writer, or not at all, and changes nothing. */
  lemma RepeatedWriteReadsOwn(calls: seq<CloudCall>, keyVersion: int, env: CloudEnv, p: WritePayload)
    requires LegalCalls(NewStore(keyVersion), calls)
    requires CloudWriteKey(p.owner, p.key) in Play(NewStore(keyVersion), calls).writeKeys
    ensures
      var s := Play(NewStore(keyVersion), calls);
      var (t, answer) := WriteOp(s, env, p);
      t == s && (answer.Done? ==> answer.value.record.owner == p.owner && answer.value.record in s.records.Values)
  {
    var empty := NewStore(keyVersion);
    assert CloudInv(empty) && KeysOwned(empty);
    RunKeepsKeysOwned(empty, calls);
    hide Play, LegalCalls, Decrypt;
  }

  // ---------------------------------------------------------------- backups

  /** All owners that appear are well formed. */
  ghost predicate WellOwned(s: CloudState) {
    ValidLedger(s.tombstones) && forall id :: id in s.records ==> s.records[id].owner.Cloud?
  }

  lemma {:induction false} LedgerValid(tombstones: map<OwnedId, Time>, entries: seq<LedgerEntry>)
    requires ValidLedger(tombstones)
    ensures ValidLedger(Ledger(tombstones, entries))
    decreases |entries|
  {
    if entries != [] {
      LedgerValid(tombstones, entries[..|entries| - 1]);
    }
  }

  lemma StepKeepsWellOwned(s: CloudState, env: CloudEnv, step: CloudStep)
    requires WellOwned(s)
    ensures WellOwned(Next(s, env, step))
  {
    hide Read, PatchedContent, Rewrap, Ledger, RewrapRecord, KeepVectors, KeepKeys, Encrypt;
    match step
    case RestoreStep(snapshot, entries) => LedgerValid(s.tombstones, entries);
    case RewrapStep(version) =>
      forall id | id in s.records && RewrapRecord(env, s.records[id], version).Done?
        ensures RewrapRecord(env, s.records[id], version).value.owner == s.records[id].owner
      {
        RewrapRecordFrame(env, s.records[id], version);
      }
    case _ =>
  }

  /** Only well-formed owners ever enter the store. */
  lemma {:induction false} RunKeepsWellOwned(s: CloudState, calls: seq<CloudCall>)
    requires WellOwned(s)
    ensures WellOwned(Play(s, calls))
    decreases |calls|
  {
    if calls != [] {
      hide Next, WellOwned;
      RunKeepsWellOwned(s, calls[..|calls| - 1]);
      StepKeepsWellOwned(Play(s, calls[..|calls| - 1]), calls[|calls| - 1].env, calls[|calls| - 1].step);
    }
  }

  /** Restoring one's own backup at once succeeds and brings back the same records exactly when no
      live record is named by the ledger; then nothing else changes but write keys without record. */
  lemma OwnBackupRestores(s: CloudState, snapshot: Snapshot)
    requires CloudInv(s) && WellOwned(s) && IsBackup(s, snapshot)
    ensures
      var (t, answer) := RestoreOp(s, snapshot, []);
      && answer == Done(|t.records|) && t.tombstones == s.tombstones
      && (t.records == s.records <==> LedgerClear(s))
      && (LedgerClear(s) ==> t == s.(writeKeys := KeepKeys(s.writeKeys, s.records)))
  {
    assert ValidSnapshot(WholeRecords(s.records));
    var t := RestoreOp(s, snapshot, []).0;
    if LedgerClear(s) {
      assert Surviving(WholeRecords(s.records), s.tombstones) == s.records;
      assert KeepVectors(s.embeddings, s.records) == s.embeddings;
    } else {
      var id :| id in s.records && OwnedId(s.records[id].owner, id) in s.tombstones;
      assert id !in t.records;
    }
  }

  /** The snapshot's own ledger plays no part in a restore: into a new store, a record comes back
      exactly when the snapshot has it and no entry passed along names it. */
  lemma RestoreIntoNewStore(keyVersion: int, snapshot: Snapshot, entries: seq<LedgerEntry>, owner: Owner, id: MemId)
    requires RestoreOp(NewStore(keyVersion), snapshot, entries).1.Done?
    ensures
      var t := RestoreOp(NewStore(keyVersion), snapshot, entries).0;
      Live(t, owner, id) <==>
        && id in snapshot.records.value && snapshot.records.value[id].Whole?
             && snapshot.records.value[id].record.owner == owner
        && forall i :: 0 <= i < |entries| ==> entries[i] != LedgerEntry(owner, id, entries[i].deletedAt)
  {
    LedgerOrigin(map[], entries, OwnedId(owner, id));
    assert forall i :: 0 <= i < |entries| ==> TakenIn(entries, i);
    hide Ledger, TakenIn;
  }

  lemma {:induction false} LedgerOfDistinct(entries: seq<LedgerEntry>, n: nat)
    requires n <= |entries| && ValidEntries(entries)
    requires forall i, j :: 0 <= i < j < |entries| ==> KeyOfEntry(entries[i]) != KeyOfEntry(entries[j])
    ensures ValidEntries(entries[..n])
    ensures forall i :: 0 <= i < n ==>
        KeyOfEntry(entries[i]) in Ledger(map[], entries[..n])
            && Ledger(map[], entries[..n])[KeyOfEntry(entries[i])] == entries[i].deletedAt
    ensures forall k :: k in Ledger(map[], entries[..n]) ==> exists i :: 0 <= i < n && KeyOfEntry(entries[i]) == k
  {
    if n > 0 {
      LedgerOfDistinct(entries, n - 1);
      assert entries[..n][..n - 1] == entries[..n - 1];
    }
  }

  lemma LedgerIsCopied(entries: seq<LedgerEntry>, tombstones: map<OwnedId, Time>)
    requires ListsLedger(entries, tombstones) && ValidLedger(tombstones)
    ensures ValidEntries(entries) && Ledger(map[], entries) == tombstones
  {
    LedgerOfDistinct(entries, |entries|);
    assert entries[..|entries|] == entries;
  }

  /** A backup restored into a new store together with the ledger it carries moves the store: the
      ledger is the same, and so are the records as far as the ledger does not name them. */
  lemma BackupMoves(s: CloudState, snapshot: Snapshot, keyVersion: int)
    requires CloudInv(s) && WellOwned(s) && IsBackup(s, snapshot)
    ensures
      var (t, answer) := RestoreOp(NewStore(keyVersion), snapshot, snapshot.ledger);
      answer.Done? && t.tombstones == s.tombstones && (t.records == s.records <==> LedgerClear(s))
  {
    assert ValidSnapshot(WholeRecords(s.records));
    LedgerIsCopied(snapshot.ledger, s.tombstones);
    hide Ledger, ListsLedger, ValidEntries, KeepVectors, KeepKeys, VectorsBound;
    if LedgerClear(s) {
      assert Surviving(WholeRecords(s.records), s.tombstones) == s.records;
    } else {
      var id :| id in s.records && OwnedId(s.records[id].owner, id) in s.tombstones;
    }
  }

  // ---------------------------------------------------------------- key rotation

  /** A successful rewrap keeps every meaning and all metadata, puts every field at the target
      version and reports how many fields moved; a failed one changes nothing. */
  lemma RewrapKeepsMeaningOfAll(s: CloudState, env: CloudEnv, version: int)
    ensures
      var (t, answer) := RewrapOp(s, env, version);
      && (answer.Failed? ==> t == s)
      && (answer.Done? ==>
            && t.records.Keys == s.records.Keys && t.keyVersion == version && answer.value == |Outdated(s, version)|
            && t.tombstones == s.tombstones && t.embeddings == s.embeddings && t.writeKeys == s.writeKeys
                 && t.forgetKeys == s.forgetKeys
            && Outdated(t, version) == {}
            && forall id :: id in s.records ==>
                 && ContentMeaning(env.kms.master, t.records[id]) == ContentMeaning(env.kms.master, s.records[id])
                 && ProvenanceMeaning(env.kms.master, t.records[id]) == ProvenanceMeaning(env.kms.master, s.records[id])
                 && t.records[id] ==
                    s.records[id].(content := t.records[id].content, provenance := t.records[id].provenance))
  {
    hide RewrapRecord, ContentMeaning, ProvenanceMeaning;
    if RewrapOp(s, env, version).1.Done? {
      forall id | id in s.records
        ensures
          var n := RewrapRecord(env, s.records[id], version).value;
          && ContentMeaning(env.kms.master, n) == ContentMeaning(env.kms.master, s.records[id])
          && ProvenanceMeaning(env.kms.master, n) == ProvenanceMeaning(env.kms.master, s.records[id])
          && n.content.keyVersion == version && n.provenance.keyVersion == version
          && n == s.records[id].(content := n.content, provenance := n.provenance)
      {
        RewrapMeaningOne(env, s.records[id], version);
        RewrapRecordFrame(env, s.records[id], version);
      }
    }
  }

  lemma RewrapCurrentRecord(env: CloudEnv, r: CloudRecord, version: int)
    requires r.content.keyVersion == version && r.provenance.keyVersion == version && r.owner.Cloud? && r.id.Mem?
    ensures RewrapRecord(env, r, version) == Done(r)
  {
  }

  lemma RewrapCurrent(t: CloudState, env: CloudEnv, version: int)
    requires Outdated(t, version) == {} && t.keyVersion == version >= 1
    requires forall id :: id in t.records ==> RewrapRecord(env, t.records[id], version) == Done(t.records[id])
    ensures RewrapOp(t, env, version) == (t, Done(0))
  {
    hide RewrapRecord, Outdated;
    assert (map id | id in t.records :: RewrapRecord(env, t.records[id], version).value) == t.records;
  }

  lemma RewrappedRecord(env: CloudEnv, r: CloudRecord, version: int)
    requires RewrapRecord(env, r, version).Done?
    ensures
      var n := RewrapRecord(env, r, version).value;
      n.owner.Cloud? && n.id.Mem? && n.content.keyVersion == version && n.provenance.keyVersion == version
  {
  }

  lemma RewrappedIsCurrent(s: CloudState, env: CloudEnv, version: int)
    requires RewrapOp(s, env, version).1.Done?
    ensures
      var t := RewrapOp(s, env, version).0;
      && Outdated(t, version) == {} && t.keyVersion == version >= 1
      && forall id :: id in t.records ==>
           var r := t.records[id];
           r.owner.Cloud? && r.id.Mem? && r.content.keyVersion == version && r.provenance.keyVersion == version
  {
    hide RewrapRecord;
    forall id | id in s.records
      ensures
        var r := RewrapRecord(env, s.records[id], version).value;
        r.owner.Cloud? && r.id.Mem? && r.content.keyVersion == version && r.provenance.keyVersion == version
    {
      RewrappedRecord(env, s.records[id], version);
    }
  }

  /** Repeating a successful rewrap, under any key service, moves nothing. */
  lemma RewrapTwice(s: CloudState, env: CloudEnv, again: CloudEnv, version: int)
    requires RewrapOp(s, env, version).1.Done?
    ensures RewrapOp(RewrapOp(s, env, version).0, again, version) == (RewrapOp(s, env, version).0, Done(0))
  {
    hide *;
    RewrappedIsCurrent(s, env, version);
    var t := RewrapOp(s, env, version).0;
    forall id | id in t.records ensures RewrapRecord(again, t.records[id], version) == Done(t.records[id]) {
      RewrapCurrentRecord(again, t.records[id], version);
    }
    RewrapCurrent(t, again, version);
  }
}
