/** Exporting an owner and importing the package: exactly when it works, what it rebuilds, and
    that repeating it changes nothing. */
module RoundTrip {
  import opened Domain
  import opened MemoryStore
  import opened StoreInvariants

  // ---------------------------------------------------------------- export

  function RelationSet(rs: seq<Relation>): set<Relation> {
    set x | x in rs
  }

  /** `r` is the export, with its vector, of the live memory `r.memory.id`. The order in which
      the relations are listed is free. */
  ghost predicate ExportOf(s: Store, owner: string, r: Record) {
    var id := r.memory.id;
    && LiveFor(s, owner, id) && r.memory == s.memories[id]
    && r.history == HistoryOf(s, id)
    && RelationSet(r.relations) == Listed(s, owner, id)
    && r.embedding == StoredVector(s, id)
    && r.fingerprint == StoredFingerprint(s, s.memories[id])
  }

  /** One record per live memory of the owner, in the order of their ids. */
  ghost predicate IsExport(s: Store, owner: string, records: seq<Record>) {
    && (forall i, j :: 0 <= i < j < |records| ==> records[i].memory.id < records[j].memory.id)
    && (forall i :: 0 <= i < |records| ==> ExportOf(s, owner, records[i]))
    && (forall id :: LiveFor(s, owner, id) ==> InPackage(records, id))
  }

  /** Everything of one owner, without ledger rows and tombstones. */
  function Share(s: Store, owner: string): Store {
    Store(map id | id in s.memories && s.memories[id].owner == owner :: s.memories[id],
          map id | id in s.vectors && id in s.memories && s.memories[id].owner == owner :: s.vectors[id],
          map w | w in s.fingerprints && w.owner == owner :: s.fingerprints[w],
          map id | id in s.history && id in s.memories && s.memories[id].owner == owner :: s.history[id],
          map k | k in s.relations && k.owner == owner :: s.relations[k],
          map[], {})
  }

  /** The vector has the dimension the memory's descriptor announces, and a memory with a write
      key still has its fingerprint. */
  ghost predicate PortableMemory(s: Store, id: Id)
    requires id in s.memories && id in s.vectors
  {
    && s.memories[id].embedding.Some? && |s.vectors[id]| == s.memories[id].embedding.value.dimension
    && (s.memories[id].idempotencyKey.Some? ==>
         WriteKey(s.memories[id].owner, s.memories[id].idempotencyKey.value) in s.fingerprints)
  }

  ghost predicate Portable(s: Store, owner: string)
    requires Aligned(s)
  {
    forall id :: LiveFor(s, owner, id) ==> PortableMemory(s, id)
  }

  // ---------------------------------------------------------------- when a package is accepted

  lemma ExportDistinct(s: Store, owner: string, records: seq<Record>)
    requires IsExport(s, owner, records)
    ensures DistinctIds(records)
  {
  }

  /** A record of an own export passes validation exactly when its memory is portable. */
  lemma ExportValid(s: Store, owner: string, r: Record)
    requires Inv(s) && ExportOf(s, owner, r)
    ensures ValidRecord(owner, r) <==> PortableMemory(s, r.memory.id)
  {
    hide ValidFingerprint, HasHolder;
    forall i | 0 <= i < |r.relations| ensures r.relations[i].owner == owner {
      assert r.relations[i] in Listed(s, owner, r.memory.id) by {
        assert r.relations[i] in RelationSet(r.relations);
      }
    }
  }

  lemma ExportedRelation(s: Store, owner: string, r: Record, x: Relation)
    requires RelationsSound(s) && ExportOf(s, owner, r) && x in r.relations
    ensures KeyOfRelation(x) in s.relations && s.relations[KeyOfRelation(x)] == x && x.owner == owner
    ensures LiveFor(s, owner, x.source) && LiveFor(s, owner, x.target)
  {
    assert x in RelationSet(r.relations);
    assert x in Listed(s, owner, r.memory.id);
  }

  lemma ExportEndpoints(s: Store, u: Store, owner: string, records: seq<Record>)
    requires Inv(s) && IsExport(s, owner, records)
    ensures EndpointsExist(u, owner, records)
  {
    forall i, j | 0 <= i < |records| && 0 <= j < |records[i].relations|
      ensures Reaches(u, owner, records, records[i].relations[j].source)
          && Reaches(u, owner, records, records[i].relations[j].target)
    {
      ExportedRelation(s, owner, records[i], records[i].relations[j]);
    }
  }

  // ---------------------------------------------------------------- folds over a clean package

  lemma {:induction false} ScreenAll(s: Store, owner: string, records: seq<Record>)
    requires forall i :: 0 <= i < |records| ==> ScreenRecord(s, owner, records[i]).Ok?
    ensures Screen(s, owner, records) == Ok(())
    decreases |records|
  {
    if records != [] {
      ScreenAll(s, owner, records[..|records| - 1]);
    }
  }

  lemma PrepareReady(s: Store, env: Env, owner: string, r: Record)
    requires r.embedding.Some?
    ensures PrepareRecord(s, env, owner, r) == Ok(r)
  {
  }

  lemma {:induction false} PrepareAll(s: Store, env: Env, owner: string, records: seq<Record>)
    requires forall i :: 0 <= i < |records| ==> records[i].embedding.Some?
    ensures Prepare(s, env, owner, records) == Ok(records)
    decreases |records|
  {
    hide PrepareRecord;
    if records != [] {
      var rest, last := records[..|records| - 1], records[|records| - 1];
      PrepareAll(s, env, owner, rest);
      PrepareReady(s, env, owner, last);
      assert rest + [last] == records;
    }
  }

  lemma {:induction false} AdmitAll(s: Store, records: seq<Record>)
    requires forall i :: 0 <= i < |records| ==> AdmitRecord(s, records[i]).Ok?
    ensures Admit(s, records) == Ok(())
    decreases |records|
  {
    if records != [] {
      AdmitAll(s, records[..|records| - 1]);
    }
  }

  lemma {:induction false} CountAllNew(s: Store, records: seq<Record>)
    requires forall i :: 0 <= i < |records| ==> records[i].memory.id !in s.memories
    ensures CountNew(s, records) == |records|
    decreases |records|
  {
    if records != [] {
      CountAllNew(s, records[..|records| - 1]);
    }
  }

  lemma {:induction false} CountNoneNew(s: Store, records: seq<Record>)
    requires forall i :: 0 <= i < |records| ==> records[i].memory.id in s.memories
    ensures CountNew(s, records) == 0
    decreases |records|
  {
    if records != [] {
      CountNoneNew(s, records[..|records| - 1]);
    }
  }

  lemma {:induction false} LoadNoneNew(s: Store, records: seq<Record>)
    requires forall i :: 0 <= i < |records| ==> records[i].memory.id in s.memories
    ensures LoadRecords(s, records) == s
    decreases |records|
  {
    if records != [] {
      LoadNoneNew(s, records[..|records| - 1]);
    }
  }

  lemma {:induction false} RelateNoneNew(relations: map<RelationKey, Relation>, rs: seq<Relation>)
    requires forall i :: 0 <= i < |rs| ==> KeyOfRelation(rs[i]) in relations
    ensures LoadRelations(relations, rs) == relations
    decreases |rs|
  {
    if rs != [] {
      RelateNoneNew(relations, rs[..|rs| - 1]);
    }
  }

  // ---------------------------------------------------------------- importing into an empty store

  lemma EmptyAccepts(s: Store, env: Env, owner: string, records: seq<Record>)
    requires Inv(s) && ValidOwner(owner) && IsExport(s, owner, records) && Portable(s, owner)
    ensures DecideImport(EMPTY, env, owner, records) == Ok(Outcome(Load(records), ImportReport(|records|, 0)))
  {
    hide ValidRecord, ValidOwner;
    ExportDistinct(s, owner, records);
    ExportEndpoints(s, EMPTY, owner, records);
    forall i | 0 <= i < |records| ensures ValidRecord(owner, records[i]) {
      ExportValid(s, owner, records[i]);
    }
    ScreenAll(EMPTY, owner, records);
    PrepareAll(EMPTY, env, owner, records);
    AdmitAll(EMPTY, records);
    CountAllNew(EMPTY, records);
  }

  lemma EmptyRejects(s: Store, env: Env, owner: string, records: seq<Record>)
    requires Inv(s) && IsExport(s, owner, records) && !Portable(s, owner)
    ensures DecideImport(EMPTY, env, owner, records) == Err(ValidationError)
  {
    hide ValidRecord, ExportOf, KeysHeld, RelationsSound, DeletionTerminal, CompleteHistory, EndpointsExist,
        Screen, Prepare, Admit, CountNew;
    var id :| LiveFor(s, owner, id) && !PortableMemory(s, id);
    var i :| 0 <= i < |records| && records[i].memory.id == id;
    ExportValid(s, owner, records[i]);
  }

  lemma {:induction false} KeysRegistered(s: Store, records: seq<Record>, i: nat, w: WriteKey)
    requires DistinctIds(records) && i < |records| && records[i].memory.id !in s.memories && Holds(records[i].memory, w)
    ensures w in LoadRecords(s, records).fingerprints
    decreases |records|
  {
    var rest := records[..|records| - 1];
    if i < |rest| {
      KeysRegistered(s, rest, i, w);
    } else {
      LoadedFrame(s, rest);
      assert !InPackage(rest, records[i].memory.id);
    }
  }

  lemma RebuiltMemory(s: Store, owner: string, records: seq<Record>, id: Id)
    requires Aligned(s) && IsExport(s, owner, records) && InPackage(records, id)
    ensures
      var t := LoadRecords(EMPTY, records);
      && LiveFor(s, owner, id) && id in t.memories && id in t.vectors && id in t.history
      && t.memories[id] == s.memories[id] && t.vectors[id] == s.vectors[id] && t.history[id] == s.history[id]
  {
    hide LoadRecords, CompleteHistory, Listed, RelationSet, StoredFingerprint;
    ExportDistinct(s, owner, records);
    var i :| 0 <= i < |records| && records[i].memory.id == id;
    assert ExportOf(s, owner, records[i]);
    LoadedNew(EMPTY, records, i);
  }

  /** The per-memory tables of an imported export. */
  lemma RebuiltMemories(s: Store, owner: string, records: seq<Record>)
    requires Inv(s) && IsExport(s, owner, records)
    ensures
      var t := LoadRecords(EMPTY, records);
      && t.memories == Share(s, owner).memories && t.vectors == Share(s, owner).vectors
           && t.history == Share(s, owner).history
  {
    hide RelationsSound, KeysHeld, LedgerSettled, DeletionTerminal, CompleteHistory, LoadRecords, ExportOf;
    var t := LoadRecords(EMPTY, records);
    ExportDistinct(s, owner, records);
    LoadedFrame(EMPTY, records);
    LoadedOld(EMPTY, records);
    forall id ensures id in t.memories <==> LiveFor(s, owner, id) {
      if InPackage(records, id) {
        RebuiltMemory(s, owner, records, id);
      }
    }
    forall id | id in t.memories
      ensures t.memories[id] == s.memories[id] && t.vectors[id] == s.vectors[id] && t.history[id] == s.history[id]
    {
      RebuiltMemory(s, owner, records, id);
    }
    assert t.memories == Share(s, owner).memories;
  }

  lemma RebuiltFingerprints(s: Store, owner: string, records: seq<Record>)
    requires Inv(s) && IsExport(s, owner, records) && Portable(s, owner)
    ensures LoadRecords(EMPTY, records).fingerprints == Share(s, owner).fingerprints
  {
    hide RelationsSound, LedgerSettled, DeletionTerminal, CompleteHistory, LoadRecords;
    var fs := LoadRecords(EMPTY, records).fingerprints;
    ExportDistinct(s, owner, records);
    forall w | w in fs ensures w.owner == owner && w in s.fingerprints && fs[w] == s.fingerprints[w] {
      EmptyHasNoKeys();
      LoadedKeys(EMPTY, records, w);
      var i :| 0 <= i < |records| && Holds(records[i].memory, w) && fs[w] == OrElse(records[i].fingerprint, Hex(""));
      assert ExportOf(s, owner, records[i]) && PortableMemory(s, records[i].memory.id);
    }
    forall w | w in s.fingerprints && w.owner == owner ensures w in fs {
      HolderOf(s, w);
      var id :| id in s.memories && Holds(s.memories[id], w);
      assert LiveFor(s, owner, id);
      var i :| 0 <= i < |records| && records[i].memory.id == id;
      assert ExportOf(s, owner, records[i]);
      KeysRegistered(EMPTY, records, i, w);
    }
  }

  lemma EmptyHasNoKeys()
    ensures forall w: WriteKey :: w !in EMPTY.fingerprints
  {
  }

  lemma RebuiltRelations(s: Store, owner: string, records: seq<Record>)
    requires Inv(s) && IsExport(s, owner, records)
    ensures LoadRelations(map[], PackageRelations(records)) == Share(s, owner).relations
  {
    hide KeysHeld, LedgerSettled, DeletionTerminal, CompleteHistory, LoadRelations, PackageRelations;
    var rs := PackageRelations(records);
    var t := LoadRelations(map[], rs);
    RelationsLoaded(map[], rs);
    forall k | k in t ensures k in s.relations && k.owner == owner && t[k] == s.relations[k] {
      PackageRelationOrigin(records, t[k]);
      var i :| 0 <= i < |records| && t[k] in records[i].relations;
      ExportedRelation(s, owner, records[i], t[k]);
    }
    forall k | k in s.relations && k.owner == owner ensures k in t {
      var x := s.relations[k];
      assert LiveFor(s, owner, k.source);
      var i :| 0 <= i < |records| && records[i].memory.id == k.source;
      assert ExportOf(s, owner, records[i]);
      assert x in Listed(s, owner, k.source);
      assert x in RelationSet(records[i].relations);
      PackageRelationOrigin(records, x);
      var j :| 0 <= j < |rs| && rs[j] == x;
    }
  }

  lemma RebuiltStore(s: Store, owner: string, records: seq<Record>)
    requires Inv(s) && IsExport(s, owner, records) && Portable(s, owner)
    ensures Commit(EMPTY, Load(records)) == Share(s, owner)
  {
    hide Inv, IsExport, LoadRecords, LoadRelations, PackageRelations, Portable, Share, InPackage;
    RebuiltMemories(s, owner, records);
    RebuiltFingerprints(s, owner, records);
    RebuiltRelations(s, owner, records);
    LoadedFrame(EMPTY, records);
    ShareHasNoLedger(s, owner);
    StoreEqual(Commit(EMPTY, Load(records)), Share(s, owner));
  }

  lemma ApplyImport(s: Store, env: Env, owner: string, records: seq<Record>)
    ensures Apply(s, env, Import(owner, records)) ==
            var d := DecideImport(s, env, owner, records);
            if d.Ok? then Commit(s, d.value.effect) else s
  {
    hide DecideImport, Commit;
  }

  /** Round trip. An export with embeddings imports into an empty store if and only if every
      exported memory is portable; then it rebuilds exactly that owner's memories, vectors,
      fingerprints, histories and relations and reports every record as imported. A rejected
      package changes nothing. */
  lemma ExportImportRoundTrip(s: Store, env: Env, owner: string, records: seq<Record>)
    requires Inv(s) && ValidOwner(owner) && IsExport(s, owner, records)
    ensures DecideImport(EMPTY, env, owner, records).Ok? <==> Portable(s, owner)
    ensures Portable(s, owner) ==>
              && DecideImport(EMPTY, env, owner, records).value.reply == ImportReport(|records|, 0)
              && Apply(EMPTY, env, Import(owner, records)) == Share(s, owner)
    ensures !Portable(s, owner) ==> Apply(EMPTY, env, Import(owner, records)) == EMPTY
  {
    AlignedOf(s);
    hide DecideImport, Inv, IsExport, ValidOwner, Commit, Portable, Share, Aligned, Apply;
    ApplyImport(EMPTY, env, owner, records);
    if Portable(s, owner) {
      EmptyAccepts(s, env, owner, records);
      RebuiltStore(s, owner, records);
    } else {
      EmptyRejects(s, env, owner, records);
    }
  }

  lemma ShareHasNoLedger(s: Store, owner: string)
    ensures Share(s, owner).operations == EMPTY.operations && Share(s, owner).tombstones == EMPTY.tombstones
    ensures EMPTY.relations == map[]
  {
  }

  lemma StoreEqual(a: Store, b: Store)
    requires a.memories == b.memories && a.vectors == b.vectors && a.fingerprints == b.fingerprints
    requires a.history == b.history && a.relations == b.relations
    requires a.operations == b.operations && a.tombstones == b.tombstones
    ensures a == b
  {
  }

  // ---------------------------------------------------------------- importing again

  lemma OwnExportEquivalent(s: Store, owner: string, r: Record)
    requires Inv(s) && ExportOf(s, owner, r)
    ensures ScreenRecord(s, owner, r).Ok? && AdmitRecord(s, r).Ok?
  {
    var listed := Listed(s, owner, r.memory.id);
    assert (set x | x in r.relations :: KeyOfRelation(x)) == (set x | x in listed :: KeyOfRelation(x)) by {
      assert forall x :: x in r.relations <==> x in RelationSet(r.relations);
    }
  }

  lemma OwnRelationsPresent(s: Store, owner: string, records: seq<Record>)
    requires Inv(s) && IsExport(s, owner, records)
    ensures LoadRelations(s.relations, PackageRelations(records)) == s.relations
  {
    hide KeysHeld, LedgerSettled, DeletionTerminal, CompleteHistory, LoadRelations, PackageRelations;
    var rs := PackageRelations(records);
    forall j | 0 <= j < |rs| ensures KeyOfRelation(rs[j]) in s.relations {
      PackageRelationOrigin(records, rs[j]);
      var i :| 0 <= i < |records| && rs[j] in records[i].relations;
      ExportedRelation(s, owner, records[i], rs[j]);
    }
    RelateNoneNew(s.relations, rs);
  }

  lemma ReimportDecides(s: Store, env: Env, owner: string, records: seq<Record>)
    requires Inv(s) && ValidOwner(owner) && IsExport(s, owner, records) && Portable(s, owner)
    ensures DecideImport(s, env, owner, records) == Ok(Outcome(Load(records), ImportReport(0, |records|)))
  {
    hide ValidRecord, ValidOwner, ScreenRecord, AdmitRecord, EndpointsExist, Inv, DistinctIds, Screen, Prepare, Admit,
      CountNew, StoredFingerprint;
    AlignedOf(s);
    ExportDistinct(s, owner, records);
    ExportEndpoints(s, s, owner, records);
    forall i | 0 <= i < |records|
      ensures ValidRecord(owner, records[i]) && ScreenRecord(s, owner, records[i]).Ok? && AdmitRecord(s, records[i]).Ok?
    {
      ExportValid(s, owner, records[i]);
      OwnExportEquivalent(s, owner, records[i]);
    }
    ScreenAll(s, owner, records);
    PrepareAll(s, env, owner, records);
    AdmitAll(s, records);
    CountNoneNew(s, records);
  }

  lemma ReimportCommits(s: Store, owner: string, records: seq<Record>)
    requires Inv(s) && IsExport(s, owner, records)
    ensures Commit(s, Load(records)) == s
  {
    hide Inv, PackageRelations, LoadRelations, LoadRecords, RelationSet, Listed, StoredFingerprint;
    AlignedOf(s);
    LoadNoneNew(s, records);
    OwnRelationsPresent(s, owner, records);
  }

  /** Importing a store's own export back into it changes nothing and reports every record as
      replayed. */
  lemma ReimportChangesNothing(s: Store, env: Env, owner: string, records: seq<Record>)
    requires Inv(s) && ValidOwner(owner) && IsExport(s, owner, records) && Portable(s, owner)
    ensures DecideImport(s, env, owner, records) == Ok(Outcome(Load(records), ImportReport(0, |records|)))
    ensures Apply(s, env, Import(owner, records)) == s
  {
    hide *;
    ReimportDecides(s, env, owner, records);
    ReimportCommits(s, owner, records);
    ApplyImport(s, env, owner, records);
  }

  lemma ShareKeys(s: Store, owner: string)
    requires KeysHeld(s)
    ensures KeysHeld(Share(s, owner))
  {
    var t := Share(s, owner);
    forall w | w in t.fingerprints ensures HasHolder(t, w) && ValidFingerprint(t.fingerprints[w]) {
      HolderOf(s, w);
      var id :| id in s.memories && Holds(s.memories[id], w);
      HeldBy(t, w, id);
    }
  }

  lemma ShareInv(s: Store, owner: string)
    requires Inv(s)
    ensures Inv(Share(s, owner))
    ensures Portable(s, owner) ==> Portable(Share(s, owner), owner)
  {
    hide KeysHeld, CompleteHistory;
    ShareKeys(s, owner);
    var t := Share(s, owner);
    assert t.memories.Keys == t.vectors.Keys == t.history.Keys;
    forall k | k in t.relations
      ensures KeyOfRelation(t.relations[k]) == k && k.source != k.target && LiveFor(t, k.owner, k.source)
          && LiveFor(t, k.owner, k.target)
    {
      assert LiveFor(s, k.owner, k.source) && LiveFor(s, k.owner, k.target);
    }
    if Portable(s, owner) {
      forall id | LiveFor(t, owner, id) ensures PortableMemory(t, id) {
        assert LiveFor(s, owner, id) && PortableMemory(s, id);
      }
    }
  }

  lemma ShareLists(s: Store, owner: string, id: Id)
    requires RelationsSound(s)
    ensures Listed(Share(s, owner), owner, id) == Listed(s, owner, id)
  {
    var t := Share(s, owner);
    forall x | x in Listed(s, owner, id) ensures x in Listed(t, owner, id) {
      var k :| k in s.relations && s.relations[k] == x && x.owner == owner && Touches(x, id);
      assert k in t.relations && t.relations[k] == x;
    }
    forall x | x in Listed(t, owner, id) ensures x in Listed(s, owner, id) {
      var k :| k in t.relations && t.relations[k] == x && x.owner == owner && Touches(x, id);
      assert k in s.relations && s.relations[k] == x;
    }
  }

  lemma ShareExport(s: Store, owner: string, r: Record)
    requires Aligned(s) && RelationsSound(s) && ExportOf(s, owner, r)
    ensures ExportOf(Share(s, owner), owner, r)
  {
    ShareLists(s, owner, r.memory.id);
    hide Listed, RelationSet, RelationsSound, CompleteHistory;
    assert r.memory.id in Share(s, owner).memories;
  }

  lemma ShareExports(s: Store, owner: string, records: seq<Record>)
    requires Inv(s) && IsExport(s, owner, records)
    ensures IsExport(Share(s, owner), owner, records)
  {
    hide LedgerSettled, KeysHeld, DeletionTerminal, ExportOf, Aligned, RelationsSound, InPackage;
    forall i | 0 <= i < |records| ensures ExportOf(Share(s, owner), owner, records[i]) {
      ShareExport(s, owner, records[i]);
    }
    forall id | LiveFor(Share(s, owner), owner, id) ensures InPackage(records, id) {
      assert LiveFor(s, owner, id);
    }
  }

  /** A second import of the same package reports every record as replayed and changes nothing. */
  lemma SecondImportReplays(s: Store, env: Env, again: Env, owner: string, records: seq<Record>)
    requires Inv(s) && ValidOwner(owner) && IsExport(s, owner, records) && Portable(s, owner)
    ensures
      var t := Apply(EMPTY, env, Import(owner, records));
      && DecideImport(t, again, owner, records) == Ok(Outcome(Load(records), ImportReport(0, |records|)))
      && Apply(t, again, Import(owner, records)) == t
  {
    hide DecideImport, Inv, IsExport, ValidOwner, Portable, Apply, Share;
    ExportImportRoundTrip(s, env, owner, records);
    ShareInv(s, owner);
    ShareExports(s, owner, records);
    AlignedOf(Share(s, owner));
    ReimportChangesNothing(Share(s, owner), again, owner, records);
  }

  // ---------------------------------------------------------------- importing one record

  /** A valid record on its own, with its vector and without relations. */
  ghost predicate Alone(owner: string, r: Record) {
    && ValidOwner(owner) && ValidMemory(r.memory) && ValidRecord(owner, r)
    && r.relations == [] && r.embedding.Some?
  }

  lemma OneRecordPieces(env: Env, owner: string, r: Record)
    requires r.relations == [] && r.embedding.Some?
    ensures DistinctIds([r]) && EndpointsExist(EMPTY, owner, [r]) && Screen(EMPTY, owner, [r]).Ok?
    ensures Prepare(EMPTY, env, owner, [r]) == Ok([r]) && Admit(EMPTY, [r]).Ok? && CountNew(EMPTY, [r]) == 1
  {
    assert [r][..0] == [];
    assert Prepare(EMPTY, env, owner, []) == Ok([]) && PrepareRecord(EMPTY, env, owner, r) == Ok(r);
    assert [] + [r] == [r];
    assert Prepare(EMPTY, env, owner, [r]) == Ok([] + [r]);
  }

  lemma OneRecordDecides(env: Env, owner: string, r: Record)
    requires Alone(owner, r)
    ensures DecideImport(EMPTY, env, owner, [r]) == Ok(Outcome(Load([r]), ImportReport(1, 0)))
    ensures WellFormed(Import(owner, [r]))
  {
    OneRecordPieces(env, owner, r);
    hide ValidRecord, ValidOwner, ValidMemory, DistinctIds, EndpointsExist, Screen, Prepare, Admit, CountNew;
  }

  lemma OneRecordLoaded(r: Record)
    requires r.relations == [] && r.embedding.Some?
    ensures
      var s := Commit(EMPTY, Load([r]));
      && s.memories == map[r.memory.id := r.memory] && s.vectors == map[r.memory.id := r.embedding.value]
      && s.history == map[r.memory.id := r.history] && s.operations == map[]
  {
    assert [r][..0] == [];
    assert LoadRecords(EMPTY, [r]) == LoadRecord(EMPTY, r);
  }

  /** Importing it into an empty store is a legal step and stores exactly this record. */
  lemma ImportOne(env: Env, owner: string, r: Record)
    requires Alone(owner, r)
    ensures LegalStep(EMPTY, Step(env, Import(owner, [r])))
    ensures
      var s := Apply(EMPTY, env, Import(owner, [r]));
      && s.memories == map[r.memory.id := r.memory] && s.vectors == map[r.memory.id := r.embedding.value]
      && s.history == map[r.memory.id := r.history] && s.operations == map[]
  {
    OneRecordDecides(env, owner, r);
    OneRecordLoaded(r);
    ApplyImport(EMPTY, env, owner, [r]);
    hide DecideImport, Apply, Commit, Alone, WellFormed;
  }
}
