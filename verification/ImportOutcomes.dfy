/** What an import accepts, what it refuses, and what it stores. */
module ImportOutcomes {
  import opened Domain
  import opened MemoryStore
  import opened StoreInvariants
  import opened RoundTrip
  import opened Outcomes

  // ---------------------------------------------------------------- which packages are accepted

  /** The record says of a stored memory what the tables say. */
  ghost predicate SameAsStored(s: Store, owner: string, r: Record) {
    var id := r.memory.id;
    && id in s.memories && id in s.vectors && id in s.history
    && r.memory == s.memories[id] && r.history == s.history[id]
    && (r.embedding.Some? ==> r.embedding.value == s.vectors[id])
    && (r.fingerprint.Some? ==>
          && r.memory.idempotencyKey.Some? && WriteKey(r.memory.owner, r.memory.idempotencyKey.value) in s.fingerprints
          && s.fingerprints[WriteKey(r.memory.owner, r.memory.idempotencyKey.value)] == r.fingerprint.value)
    && (forall k :: NamedBy(r, k) <==>
          k in s.relations && s.relations[k].owner == owner
              && (s.relations[k].source == id || s.relations[k].target == id))
  }

  /** The record lists a relation with this owner, these ends and this kind. */
  ghost predicate NamedBy(r: Record, k: RelationKey) {
    exists i :: 0 <= i < |r.relations| && ListedAs(r.relations[i], k)
  }

  ghost predicate ListedAs(x: Relation, k: RelationKey) {
    x.owner == k.owner && x.source == k.source && x.target == k.target && x.kind == k.kind
  }

  /** A new memory: not there, not buried, and with a vector or embeddable under its own profile. */
  ghost predicate Loads(s: Store, env: Env, owner: string, r: Record) {
    && r.memory.id !in s.memories && Tombstone(owner, r.memory.tenant, r.memory.id) !in s.tombstones
    && (r.embedding.Some?
        || (r.memory.embedding == Some(env.provider.profile) && Embeddable(env.provider, r.memory.content)))
  }

  ghost predicate RecordAllowed(s: Store, env: Env, owner: string, r: Record) {
    if Owns(s, owner, None, r.memory.id) then SameAsStored(s, owner, r) else Loads(s, env, owner, r)
  }

  /** Both ends of every relation are in the package or belong to the owner. */
  ghost predicate EndsKnown(s: Store, owner: string, records: seq<Record>) {
    forall i, j :: 0 <= i < |records| && 0 <= j < |records[i].relations| ==>
      && Known(s, owner, records, records[i].relations[j].source)
           && Known(s, owner, records, records[i].relations[j].target)
  }

  ghost predicate Known(s: Store, owner: string, records: seq<Record>, id: Id) {
    (exists i :: 0 <= i < |records| && records[i].memory.id == id) || Owns(s, owner, None, id)
  }

  ghost predicate ImportAllowed(s: Store, env: Env, owner: string, records: seq<Record>) {
    && ValidOwner(owner) && EndsKnown(s, owner, records)
    && (forall i, j :: 0 <= i < j < |records| ==> records[i].memory.id != records[j].memory.id)
    && (forall i :: 0 <= i < |records| ==> ValidRecord(owner, records[i]) && RecordAllowed(s, env, owner, records[i]))
  }

  lemma EquivalentOutcome(s: Store, owner: string, r: Record)
    requires Inv(s) && r.memory.id in s.memories
    ensures Equivalent(s, owner, r) <==> SameAsStored(s, owner, r)
  {
    hide LedgerSettled, DeletionTerminal, KeysHeld, CompleteHistory;
    var id := r.memory.id;
    var mine, theirs := set x | x in r.relations :: KeyOfRelation(x), set x | x in Listed(s, owner, id) ::
        KeyOfRelation(x);
    forall k ensures k in mine <==> NamedBy(r, k) {
      if k in mine {
        var x :| x in r.relations && KeyOfRelation(x) == k;
        var i :| 0 <= i < |r.relations| && r.relations[i] == x;
        assert ListedAs(r.relations[i], k);
      }
      if NamedBy(r, k) {
        var i :| 0 <= i < |r.relations| && ListedAs(r.relations[i], k);
        assert r.relations[i] in r.relations && KeyOfRelation(r.relations[i]) == k;
      }
    }
    forall k ensures k in theirs <==>
        k in s.relations && s.relations[k].owner == owner
            && (s.relations[k].source == id || s.relations[k].target == id)
    {
      if k in s.relations && s.relations[k].owner == owner
          && (s.relations[k].source == id || s.relations[k].target == id) {
        assert s.relations[k] in Listed(s, owner, id) && KeyOfRelation(s.relations[k]) == k;
      }
    }
    hide Listed, NamedBy;
    assert (forall k :: k in mine <==> k in theirs) <==> mine == theirs;
  }

  lemma RecordScreens(s: Store, env: Env, owner: string, r: Record)
    requires Inv(s) && r.memory.owner == owner
    ensures RecordAllowed(s, env, owner, r) <==>
              && ScreenRecord(s, owner, r).Ok? && PrepareRecord(s, env, owner, r).Ok?
              && AdmitRecord(s, r).Ok?
  {
    GetFinds(s, owner, None, r.memory.id);
    EmbedOutcome(env.provider, r.memory.content);
    if Owns(s, owner, None, r.memory.id) {
      EquivalentOutcome(s, owner, r);
    }
    hide Equivalent, SameAsStored, Embed, Embeddable, RelationsSound, KeysHeld, LedgerSettled, Aligned;
  }

  lemma {:induction false} PreparesAll(s: Store, env: Env, owner: string, records: seq<Record>)
    requires forall i :: 0 <= i < |records| ==> PrepareRecord(s, env, owner, records[i]).Ok?
    ensures Prepare(s, env, owner, records).Ok?
    decreases |records|
  {
    if records != [] {
      hide PrepareRecord;
      PreparesAll(s, env, owner, records[..|records| - 1]);
    }
  }

  lemma DecisionParts(s: Store, env: Env, owner: string, records: seq<Record>)
    ensures DecideImport(s, env, owner, records).Ok? <==>
              && ValidOwner(owner) && DistinctIds(records)
                   && (forall i :: 0 <= i < |records| ==> ValidRecord(owner, records[i]))
              && EndpointsExist(s, owner, records) && Screen(s, owner, records).Ok?
                   && Prepare(s, env, owner, records).Ok?
              && Admit(s, Prepare(s, env, owner, records).value).Ok?
    ensures
      var d := DecideImport(s, env, owner, records);
      d.Ok? ==>
        var p := Prepare(s, env, owner, records).value;
        d.value.effect == Load(p) && d.value.reply == ImportReport(CountNew(s, p), |p| - CountNew(s, p))
  {
    hide ValidOwner, DistinctIds, ValidRecord, EndpointsExist, Screen, Prepare, Admit, CountNew;
  }

  lemma EndsOutcome(s: Store, owner: string, records: seq<Record>)
    ensures EndpointsExist(s, owner, records) <==> EndsKnown(s, owner, records)
  {
    forall id ensures Reaches(s, owner, records, id) <==> Known(s, owner, records, id) {
      GetFinds(s, owner, None, id);
    }
    hide Reaches, Known;
  }

  lemma AdmissionByMemory(s: Store, a: Record, b: Record)
    requires a.memory == b.memory
    ensures AdmitRecord(s, a) == AdmitRecord(s, b)
  {
  }

  /** A package is accepted exactly when it is well formed, its relations end at known memories, each
      record of a memory the owner has says what the tables say, and each other one can be loaded. */
  lemma ImportAllowedIff(s: Store, env: Env, owner: string, records: seq<Record>)
    requires Inv(s)
    ensures Decide(s, env, Import(owner, records)).Ok? <==> ImportAllowed(s, env, owner, records)
    ensures Decide(s, env, Import(owner, records)).Err? ==> Apply(s, env, Import(owner, records)) == s
  {
    DecisionParts(s, env, owner, records);
    EndsOutcome(s, owner, records);
    ApplyImport(s, env, owner, records);
    ImportDispatch(s, env, owner, records);
    hide Decide, Apply, DecideImport, ValidOwner, ValidRecord, EndpointsExist, EndsKnown, Screen, Prepare, Admit,
        ScreenRecord,
      PrepareRecord, AdmitRecord, RecordAllowed, Inv;
    if DecideImport(s, env, owner, records).Ok? {
      PreparedPackage(s, env, owner, records);
      var p := Prepare(s, env, owner, records).value;
      forall i | 0 <= i < |records| ensures RecordAllowed(s, env, owner, records[i]) {
        ScreenedEach(s, owner, records, i);
        PreparedEach(s, env, owner, records, i);
        AdmittedEach(s, p, i);
        AdmissionByMemory(s, p[i], records[i]);
        OwnerOfRecord(owner, records[i]);
        RecordScreens(s, env, owner, records[i]);
      }
    } else if ImportAllowed(s, env, owner, records) {
      forall i | 0 <= i < |records|
        ensures ScreenRecord(s, owner, records[i]).Ok? && PrepareRecord(s, env, owner, records[i]).Ok?
        ensures AdmitRecord(s, records[i]).Ok?
      {
        OwnerOfRecord(owner, records[i]);
        RecordScreens(s, env, owner, records[i]);
      }
      ScreenAll(s, owner, records);
      PreparesAll(s, env, owner, records);
      PreparedPackage(s, env, owner, records);
      var p := Prepare(s, env, owner, records).value;
      forall i | 0 <= i < |p| ensures AdmitRecord(s, p[i]).Ok? {
        AdmissionByMemory(s, p[i], records[i]);
      }
      AdmitAll(s, p);
    }
  }

  lemma OwnerOfRecord(owner: string, r: Record)
    requires ValidRecord(owner, r)
    ensures r.memory.owner == owner
  {
  }

  lemma ImportDispatch(s: Store, env: Env, owner: string, records: seq<Record>)
    ensures Decide(s, env, Import(owner, records)) == DecideImport(s, env, owner, records)
  {
    hide DecideImport;
  }

  // ---------------------------------------------------------------- what an accepted package stores

  ghost predicate New(s: Store, r: Record) {
    r.memory.id !in s.memories
  }

  /** A new memory is stored as the record has it, with the record's vector or else that of its content. */
  ghost predicate Stored(t: Store, env: Env, r: Record) {
    var id := r.memory.id;
    && id in t.memories && id in t.vectors && id in t.history && t.memories[id] == r.memory
         && t.history[id] == r.history
    && Some(t.vectors[id]) == (if r.embedding.Some? then r.embedding else env.provider.embed(r.memory.content))
  }

  /** What was there stays, and nothing comes that the package does not name. */
  ghost predicate OnlyNew(s: Store, t: Store, records: seq<Record>) {
    && (forall id :: id in s.memories ==>
          && id in t.memories && t.memories[id] == s.memories[id]
          && (id in s.vectors ==> id in t.vectors && t.vectors[id] == s.vectors[id])
          && (id in s.history ==> id in t.history && t.history[id] == s.history[id]))
    && (forall id :: id in t.memories && id !in s.memories ==>
         exists i :: 0 <= i < |records| && records[i].memory.id == id)
    && t.operations == s.operations && t.tombstones == s.tombstones
  }

  /** The stored relations are those from before and the package's. */
  ghost predicate RelationsJoined(s: Store, t: Store, records: seq<Record>) {
    && (forall k :: k in s.relations ==> k in t.relations && t.relations[k] == s.relations[k])
    && (forall i, j :: 0 <= i < |records| && 0 <= j < |records[i].relations| ==>
         KeyOfRelation(records[i].relations[j]) in t.relations)
    && (forall k :: k in t.relations && k !in s.relations ==>
          exists i :: 0 <= i < |records| && t.relations[k] in records[i].relations)
  }

  /** New write keys are bound to the fingerprints the package gives. */
  ghost predicate KeysJoined(s: Store, t: Store, records: seq<Record>) {
    && (forall i, w: WriteKey :: 0 <= i < |records| && New(s, records[i]) && Holds(records[i].memory, w) ==>
         w in t.fingerprints)
    && (forall w :: w in s.fingerprints ==> w in t.fingerprints)
    && (forall w :: w in t.fingerprints ==>
          || (w in s.fingerprints && t.fingerprints[w] == s.fingerprints[w])
          || (exists i :: 0 <= i < |records| && New(s, records[i]) && Holds(records[i].memory, w)
                          && Some(t.fingerprints[w]) == records[i].fingerprint))
  }

  lemma {:induction false} KeysGrow(s: Store, records: seq<Record>)
    ensures forall w :: w in s.fingerprints ==> w in LoadRecords(s, records).fingerprints
    decreases |records|
  {
    if records != [] {
      KeysGrow(s, records[..|records| - 1]);
    }
  }

  lemma {:induction false} CountIsGrowth(s: Store, records: seq<Record>)
    requires DistinctIds(records)
    ensures |LoadRecords(s, records).memories| == |s.memories| + CountNew(s, records)
    decreases |records|
  {
    if records != [] {
      var rest, last := records[..|records| - 1], records[|records| - 1];
      CountIsGrowth(s, rest);
      LoadedFrame(s, rest);
      assert !InPackage(rest, last.memory.id);
    }
  }

  lemma LoadedCount(s: Store, p: seq<Record>)
    requires DistinctIds(p)
    ensures |Commit(s, Load(p)).memories| == |s.memories| + CountNew(s, p)
  {
    CountIsGrowth(s, p);
    assert Commit(s, Load(p)).memories == LoadRecords(s, p).memories;
    hide LoadRecords, CountNew, DistinctIds, Commit;
  }

  lemma LoadedOnlyNew(s: Store, p: seq<Record>)
    requires Aligned(s)
    ensures OnlyNew(s, LoadRecords(s, p), p)
  {
    hide LoadRecords, CompleteHistory;
    LoadedFrame(s, p);
    LoadedOld(s, p);
  }

  lemma LoadedPlaced(s: Store, p: seq<Record>)
    requires DistinctIds(p)
    ensures forall i :: 0 <= i < |p| && New(s, p[i]) ==> Placed(LoadRecords(s, p), p[i])
  {
    hide LoadRecords, Placed, DistinctIds;
    forall i | 0 <= i < |p| && New(s, p[i]) ensures Placed(LoadRecords(s, p), p[i]) {
      LoadedNew(s, p, i);
    }
  }

  /** None of this looks at the relations. */
  lemma RelationsAside(s: Store, u: Store, t: Store, p: seq<Record>)
    requires t == u.(relations := t.relations)
    ensures OnlyNew(s, u, p) ==> OnlyNew(s, t, p)
    ensures forall i :: 0 <= i < |p| && Placed(u, p[i]) ==> Placed(t, p[i])
  {
    assert t.memories == u.memories && t.vectors == u.vectors && t.history == u.history;
    assert t.operations == u.operations && t.tombstones == u.tombstones;
  }

  lemma LoadIsJoin(s: Store, p: seq<Record>)
    ensures Commit(s, Load(p)) == LoadRecords(s, p).(relations := Commit(s, Load(p)).relations)
  {
    hide LoadRecords;
  }

  lemma LoadedMemories(s: Store, p: seq<Record>)
    requires Aligned(s) && DistinctIds(p)
    ensures OnlyNew(s, Commit(s, Load(p)), p)
    ensures |Commit(s, Load(p)).memories| == |s.memories| + CountNew(s, p)
    ensures forall i :: 0 <= i < |p| && New(s, p[i]) ==> Placed(Commit(s, Load(p)), p[i])
  {
    hide Aligned, Commit, LoadRecords, CountNew, DistinctIds, OnlyNew, Placed, New;
    LoadedCount(s, p);
    LoadedOnlyNew(s, p);
    LoadedPlaced(s, p);
    LoadIsJoin(s, p);
    RelationsAside(s, LoadRecords(s, p), Commit(s, Load(p)), p);
  }

  lemma LoadedRelations(s: Store, p: seq<Record>)
    ensures RelationsJoined(s, Commit(s, Load(p)), p)
  {
    LoadedFrame(s, p);
    RelationsLoaded(s.relations, PackageRelations(p));
    var t := Commit(s, Load(p));
    forall i, j | 0 <= i < |p| && 0 <= j < |p[i].relations| ensures KeyOfRelation(p[i].relations[j]) in t.relations {
      PackageRelationOrigin(p, p[i].relations[j]);
      var n :| 0 <= n < |PackageRelations(p)| && PackageRelations(p)[n] == p[i].relations[j];
    }
    forall k | k in t.relations && k !in s.relations
      ensures exists i :: 0 <= i < |p| && t.relations[k] in p[i].relations
    {
      PackageRelationOrigin(p, t.relations[k]);
    }
  }

  lemma LoadedFingerprints(s: Store, p: seq<Record>)
    requires DistinctIds(p) && forall i :: 0 <= i < |p| && p[i].memory.idempotencyKey.Some? ==> p[i].fingerprint.Some?
    ensures KeysJoined(s, Commit(s, Load(p)), p)
  {
    var t := Commit(s, Load(p));
    assert t.fingerprints == LoadRecords(s, p).fingerprints;
    hide Commit, LoadRecords;
    KeysGrow(s, p);
    forall i, w: WriteKey | 0 <= i < |p| && New(s, p[i]) && Holds(p[i].memory, w) ensures w in t.fingerprints {
      KeysRegistered(s, p, i, w);
    }
    forall w | w in t.fingerprints
      ensures || (w in s.fingerprints && t.fingerprints[w] == s.fingerprints[w])
              || (exists i :: 0 <= i < |p| && New(s, p[i]) && Holds(p[i].memory, w)
                              && Some(t.fingerprints[w]) == p[i].fingerprint)
    {
      LoadedKeys(s, p, w);
    }
  }

  lemma RecordKeyed(owner: string, r: Record)
    requires ValidRecord(owner, r)
    ensures r.memory.idempotencyKey.Some? ==> r.fingerprint.Some?
  {
  }

  /** Filling in vectors changes nothing of this. */
  lemma SameForPrepared(s: Store, t: Store, records: seq<Record>, p: seq<Record>)
    requires |p| == |records| && forall i :: 0 <= i < |p| ==> p[i] == records[i].(embedding := p[i].embedding)
    ensures OnlyNew(s, t, p) ==> OnlyNew(s, t, records)
    ensures RelationsJoined(s, t, p) ==> RelationsJoined(s, t, records)
    ensures KeysJoined(s, t, p) ==> KeysJoined(s, t, records)
  {
    assert forall i :: 0 <= i < |p| ==> p[i].memory == records[i].memory && p[i].relations == records[i].relations;
    assert forall i :: 0 <= i < |p| ==> p[i].fingerprint == records[i].fingerprint;
  }

  lemma PreparedStores(s: Store, t: Store, env: Env, owner: string, r: Record)
    requires PrepareRecord(s, env, owner, r).Ok? && New(s, r) && Placed(t, PrepareRecord(s, env, owner, r).value)
    ensures Stored(t, env, r)
  {
    GetFinds(s, owner, None, r.memory.id);
    EmbedOutcome(env.provider, r.memory.content);
  }

  /** The prepared package is the one to load. */
  lemma ImportLoads(s: Store, env: Env, owner: string, records: seq<Record>)
    requires Decide(s, env, Import(owner, records)).Ok?
    ensures DistinctIds(records) && (forall i :: 0 <= i < |records| ==> ValidRecord(owner, records[i]))
    ensures Prepare(s, env, owner, records).Ok?
    ensures
      var p := Prepare(s, env, owner, records).value;
      && Apply(s, env, Import(owner, records)) == Commit(s, Load(p))
      && Decide(s, env, Import(owner, records)).value.reply == ImportReport(CountNew(s, p), |p| - CountNew(s, p))
  {
    DecisionParts(s, env, owner, records);
    ImportDispatch(s, env, owner, records);
    ApplyImport(s, env, owner, records);
    hide *;
  }

  lemma PackageStores(s: Store, env: Env, owner: string, records: seq<Record>)
    requires Aligned(s) && DistinctIds(records) && (forall i :: 0 <= i < |records| ==> ValidRecord(owner, records[i]))
    requires Prepare(s, env, owner, records).Ok?
    ensures
      var p := Prepare(s, env, owner, records).value;
      var t := Commit(s, Load(p));
      && |p| == |records| && |t.memories| == |s.memories| + CountNew(s, p)
      && OnlyNew(s, t, records) && RelationsJoined(s, t, records) && KeysJoined(s, t, records)
      && forall i :: 0 <= i < |records| && New(s, records[i]) ==> Stored(t, env, records[i])
  {
    hide ValidRecord, Prepare, Aligned, Commit, OnlyNew, RelationsJoined, KeysJoined, Placed, Stored,
        PrepareRecord, CountNew;
    var p := Prepare(s, env, owner, records).value;
    PreparedPackage(s, env, owner, records);
    LoadedMemories(s, p);
    LoadedRelations(s, p);
    forall i | 0 <= i < |p| ensures p[i].memory.idempotencyKey.Some? ==> p[i].fingerprint.Some? {
      RecordKeyed(owner, p[i]);
    }
    LoadedFingerprints(s, p);
    var t := Commit(s, Load(p));
    SameForPrepared(s, t, records, p);
    forall i | 0 <= i < |records| && New(s, records[i]) ensures Stored(t, env, records[i]) {
      PreparedEach(s, env, owner, records, i);
      PreparedStores(s, t, env, owner, records[i]);
    }
  }

  /** An accepted package adds exactly its new memories, with their histories, vectors, relations and
      write keys, and reports how many were new. */
  lemma ImportStores(s: Store, env: Env, owner: string, records: seq<Record>)
    requires Inv(s) && Decide(s, env, Import(owner, records)).Ok?
    ensures
      var t := Apply(s, env, Import(owner, records));
      && (forall i :: 0 <= i < |records| && New(s, records[i]) ==> Stored(t, env, records[i]))
      && OnlyNew(s, t, records) && RelationsJoined(s, t, records) && KeysJoined(s, t, records)
      && 0 <= |t.memories| - |s.memories| <= |records|
      && Decide(s, env, Import(owner, records)).value.reply ==
         ImportReport(|t.memories| - |s.memories|, |records| - (|t.memories| - |s.memories|))
  {
    hide *;
    AlignedOf(s);
    ImportLoads(s, env, owner, records);
    PackageStores(s, env, owner, records);
    CountNewBound(s, Prepare(s, env, owner, records).value);
  }
}
