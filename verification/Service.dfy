/** The code itself: a mutable store, repositories that change it in place, a unit of work that
    snapshots and rolls back, and the service methods that drive them. Every method is proved
    to compute what `MemoryStore` specifies. */
module Service {
  import opened Domain
  import opened MemoryStore
  import opened StoreInvariants
  import opened RoundTrip
  import Ranking

  /** The answer a decision sends back. */
  function ReplyOf(d: Result<Outcome>): Result<Reply> {
    if d.Ok? then Ok(d.value.reply) else Err(d.error)
  }

  /** A row freshly claimed and not yet completed. */
  function OpenRow(f: Fingerprint): Operation {
    Operation(f, InProgress, None, None, None)
  }

  function Claimed(s: Store, key: OperationKey, f: Fingerprint): Store {
    s.(operations := s.operations[key := OpenRow(f)])
  }

  class InMemoryStore {
    var memories: map<Id, Memory>
    var vectors: map<Id, Vector>
    var fingerprints: map<WriteKey, Fingerprint>
    var history: map<Id, seq<MemoryVersion>>
    var relations: map<RelationKey, Relation>
    var operations: map<OperationKey, Operation>
    var tombstones: set<Tombstone>

    /** The seven components as one value. */
    function View(): Store
      reads this
    {
      Store(memories, vectors, fingerprints, history, relations, operations, tombstones)
    }

    constructor ()
      ensures View() == EMPTY
    {
      memories, vectors, fingerprints, history := map[], map[], map[], map[];
      relations, operations, tombstones := map[], map[], {};
    }

    /** Put all seven components back. */
    method Assign(s: Store)
      modifies this
      ensures View() == s
    {
      memories, vectors, fingerprints, history := s.memories, s.vectors, s.fingerprints, s.history;
      relations, operations, tombstones := s.relations, s.operations, s.tombstones;
    }

    // -------------------------------------------------------------- idempotency repository

    method ClaimOperation(key: OperationKey, f: Fingerprint) returns (r: Result<Option<Operation>>)
      modifies this
      ensures r == Claim(old(View()), key, f)
      ensures View() == if r == Ok(None) then Claimed(old(View()), key, f) else old(View())
    {
      if key !in operations {
        operations := operations[key := OpenRow(f)];
        return Ok(None);
      }
      var prior := operations[key];
      if prior.fingerprint != f {
        return Err(IdempotencyConflict);
      }
      if prior.status != Completed {
        return Err(IdempotencyInProgress);
      }
      return Ok(Some(prior));
    }

    method CompleteOperation(key: OperationKey, f: Fingerprint, id: Id, version: Option<int>, status: string)
      returns (r: Result<()>)
      modifies this
      ensures r.Ok? <==> key in old(operations) && old(operations)[key].fingerprint == f
      ensures r.Err? ==> r.error == IdempotencyConflict && View() == old(View())
      ensures r.Ok? ==>
                View() == if old(operations)[key].status == Completed then old(View())
                          else old(View()).(operations := old(operations)[key := Row(f, id, version, status)])
    {
      if key !in operations || operations[key].fingerprint != f {
        return Err(IdempotencyConflict);
      }
      if operations[key].status != Completed {
        operations := operations[key := operations[key].(status := Completed, memoryId := Some(id),
                                                         resultVersion := version, resultStatus := Some(status))];
      }
      return Ok(());
    }

    // -------------------------------------------------------------- memory repository

    method GetMemory(owner: string, id: Id, tenant: Option<string>) returns (m: Option<Memory>)
      ensures m == Get(View(), owner, id, tenant)
    {
      if id !in memories || memories[id].owner != owner {
        return None;
      }
      if tenant.Some? && memories[id].tenant != tenant {
        return None;
      }
      return Some(memories[id]);
    }

    method GetMemoryVersion(owner: string, id: Id, version: int, tenant: Option<string>) returns (r: Result<Memory>)
      ensures r == GetVersion(View(), owner, id, version, tenant)
    {
      var current := GetMemory(owner, id, tenant);
      if current.None? {
        return Err(NotFound);
      }
      if current.value.version == version {
        return Ok(current.value);
      }
      var snapshots := if id in history then history[id] else [];
      var i := 0;
      while i < |snapshots|
        invariant 0 <= i <= |snapshots|
        invariant FindVersion(snapshots, version) == FindVersion(snapshots[i..], version)
      {
        assert snapshots[i..][1..] == snapshots[i + 1..];
        if snapshots[i].version == version {
          return Rebuild(current.value, snapshots[i]);
        }
        i := i + 1;
      }
      return Err(NotFound);
    }

    /** The write key is bound: the stored digest and some live memory written under it. */
    method FindByKey(w: WriteKey) returns (r: Result<Option<(Memory, Fingerprint)>>)
      ensures w !in fingerprints ==> r == Ok(None)
      ensures w in fingerprints ==> (r.Ok? <==> HasHolder(View(), w)) && (r.Ok? ==> r.value.Some?)
      ensures r.Err? ==> r.error == MissingHolder
      ensures r.Ok? && r.value.Some? ==>
                && w in fingerprints && r.value.value.1 == fingerprints[w]
                && Holds(r.value.value.0, w) && r.value.value.0 in memories.Values
    {
      if w !in fingerprints {
        return Ok(None);
      }
      var todo := memories.Keys;
      while todo != {}
        invariant todo <= memories.Keys
        invariant forall id :: id in memories && id !in todo ==> !Holds(memories[id], w)
      {
        var id :| id in todo;
        if memories[id].owner == w.owner && memories[id].idempotencyKey == Some(w.key) {
          HeldBy(View(), w, id);
          return Ok(Some((memories[id], fingerprints[w])));
        }
        todo := todo - {id};
      }
      return Err(MissingHolder);
    }

    /** Stores a new memory, unless its write key is bound: then answers a holder of the key, or
        conflicts when it is bound to another fingerprint. */
    method CreateMemory(m: Memory, f: Fingerprint, v: Vector) returns (r: Result<Option<Memory>>)
      requires ValidLabel(m.idempotencyKey)
      modifies this
      ensures !KeyBound(old(View()), m) ==> r == Ok(None) && View() == Commit(old(View()), Create(m, f, v))
      ensures KeyBound(old(View()), m) ==>
                var w := WriteKey(m.owner, m.idempotencyKey.value);
                && View() == old(View())
                && (fingerprints[w] != f ==> r == Err(IdempotencyConflict))
                && (fingerprints[w] == f && !HasHolder(View(), w) ==> r == Err(MissingHolder))
                && (fingerprints[w] == f && HasHolder(View(), w) ==>
                      r.Ok? && r.value.Some? && Holds(r.value.value, w) && r.value.value in memories.Values)
    {
      if m.idempotencyKey.Some? && m.idempotencyKey.value != "" {
        var w := WriteKey(m.owner, m.idempotencyKey.value);
        if w in fingerprints {
          if fingerprints[w] != f {
            return Err(IdempotencyConflict);
          }
          var prior := FindByKey(w);
          return if prior.Err? then Err(prior.error) else Ok(Some(prior.value.value.0));
        }
        fingerprints := fingerprints[w := f];
      }
      memories := memories[m.id := m];
      vectors := vectors[m.id := v];
      history := history[m.id := [Snapshot(m, "created")]];
      return Ok(None);
    }

    static predicate KeyBound(s: Store, m: Memory) {
      m.idempotencyKey.Some? && WriteKey(m.owner, m.idempotencyKey.value) in s.fingerprints
    }

    method UpdateMemory(m: Memory, expected: int, version: MemoryVersion, v: Vector) returns (r: Result<()>)
      modifies this
      ensures r.Ok? <==>
          m.id in old(memories) && old(memories)[m.id].owner == m.owner && old(memories)[m.id].version == expected
      ensures r.Err? ==> View() == old(View())
      ensures r.Ok? ==>
                View() == old(View()).(memories := old(memories)[m.id := m], vectors := old(vectors)[m.id := v],
                                       history := old(history)[m.id := HistoryOf(old(View()), m.id) + [version]])
    {
      if m.id !in memories || memories[m.id].owner != m.owner {
        return Err(NotFound);
      }
      if memories[m.id].version != expected {
        return Err(VersionConflict);
      }
      history := history[m.id := (if m.id in history then history[m.id] else []) + [version]];
      memories := memories[m.id := m];
      vectors := vectors[m.id := v];
      return Ok(());
    }

    method ForgetMemory(owner: string, id: Id, tenant: Option<string>) returns (forgotten: bool)
      modifies this
      ensures forgotten == Get(old(View()), owner, id, tenant).Some?
      ensures View() == if forgotten then Bury(old(View()), id) else old(View())
    {
      if id !in memories || memories[id].owner != owner {
        return false;
      }
      var m := memories[id];
      if tenant.Some? && m.tenant != tenant {
        return false;
      }
      memories := memories - {id};
      vectors := vectors - {id};
      history := history - {id};
      if m.idempotencyKey.Some? {
        fingerprints := fingerprints - {WriteKey(owner, m.idempotencyKey.value)};
      }
      relations := map k | k in relations && !Touches(relations[k], id) :: relations[k];
      assert relations == Detach(old(relations), id);
      tombstones := tombstones + {Tombstone(owner, m.tenant, id)};
      return true;
    }

    method AddRelation(r: Relation) returns (result: Result<()>)
      modifies this
      ensures result ==
              if Get(old(View()), r.owner, r.source, None).None? || Get(old(View()), r.owner, r.target, None).None?
              then Err(NotFound)
              else if KeyOfRelation(r) in old(relations) then Err(RelationConflict) else Ok(())
      ensures View() == if result.Ok? then Commit(old(View()), Link(r)) else old(View())
    {
      var source := GetMemory(r.owner, r.source, None);
      var target := GetMemory(r.owner, r.target, None);
      if source.None? || target.None? {
        return Err(NotFound);
      }
      if KeyOfRelation(r) in relations {
        return Err(RelationConflict);
      }
      relations := relations[KeyOfRelation(r) := r];
      return Ok(());
    }

    // -------------------------------------------------------------- admin repository

    method ListRelations(owner: string, id: Id) returns (rs: seq<Relation>)
      ensures RelationSet(rs) == Listed(View(), owner, id)
    {
      rs := [];
      var todo := relations.Keys;
      while todo != {}
        invariant todo <= relations.Keys
        invariant RelationSet(rs) ==
          set k | k in relations && k !in todo && relations[k].owner == owner
              && Touches(relations[k], id) :: relations[k]
      {
        var k :| k in todo;
        if relations[k].owner == owner && Touches(relations[k], id) {
          ghost var before := RelationSet(rs);
          rs := rs + [relations[k]];
          assert RelationSet(rs) == before + {relations[k]};
        }
        todo := todo - {k};
      }
    }

    method ExportMemory(owner: string, id: Id) returns (record: Option<Record>)
      ensures record.Some? <==> LiveFor(View(), owner, id)
      ensures record.Some? ==> Aligned(View()) ==> record.value.memory.id == id && ExportOf(View(), owner, record.value)
    {
      var m := GetMemory(owner, id, None);
      if m.None? {
        return None;
      }
      var rs := ListRelations(owner, id);
      var f := StoredFingerprint(View(), m.value);
      return Some(Record(m.value, HistoryOf(View(), id), rs, StoredVector(View(), id), f));
    }

    /** One record: blocked by its tombstone, compared with what is there, or inserted. */
    method ImportRecord(record: Record) returns (r: Result<bool>)
      modifies this
      ensures r.Err? <==> TakeRecord(old(View()), record).Err?
      ensures r.Err? ==> r.error == TakeRecord(old(View()), record).error
      ensures r.Ok? ==>
          View() == TakeRecord(old(View()), record).value && (r.value <==> record.memory.id !in old(memories))
    {
      var m := record.memory;
      if Grave(m) in tombstones {
        return Err(RestoreBlocked);
      }
      if m.id in memories {
        return if memories[m.id] != m then Err(ImportConflict) else Ok(false);
      }
      if record.embedding.None? {
        return Err(UnpreparedRecord);
      }
      memories := memories[m.id := m];
      vectors := vectors[m.id := record.embedding.value];
      history := history[m.id := record.history];
      if m.idempotencyKey.Some? {
        fingerprints := fingerprints[WriteKey(m.owner, m.idempotencyKey.value) := OrElse(record.fingerprint, Hex(""))];
      }
      return Ok(true);
    }

    /** Inserts a package: records first, in turn, then their relations. */
    method ImportRecords(records: seq<Record>) returns (r: Result<(nat, nat)>)
      modifies this
      ensures r.Err? <==> TakeRecords(old(View()), records).Err?
      ensures r.Err? ==> r.error == TakeRecords(old(View()), records).error
      ensures r.Ok? ==>
                var t := TakeRecords(old(View()), records).value;
                && View() == t.(relations := LoadRelations(t.relations, PackageRelations(records)))
                && r.value.0 == |memories| - |old(memories)| && r.value.0 + r.value.1 == |records|
    {
      hide TakeRecord;
      ghost var start := View();
      var imported, replayed := 0, 0;
      for n := 0 to |records|
        invariant TakeRecords(start, records[..n]) == Ok(View())
        invariant imported == |memories| - |start.memories| && imported + replayed == n
      {
        NextPrefix(records, n);
        ghost var before := View();
        var one := ImportRecord(records[n]);
        TakenMemories(before, records[n]);
        if one.Err? {
          TakeFails(start, records, n + 1);
          return Err(one.error);
        }
        if one.value {
          imported := imported + 1;
        } else {
          replayed := replayed + 1;
        }
      }
      assert records[..|records|] == records;
      InsertRelations(records);
      return Ok((imported, replayed));
    }

    method InsertRelations(records: seq<Record>)
      modifies this`relations
      ensures relations == LoadRelations(old(relations), PackageRelations(records))
    {
      hide LoadRelations;
      assert LoadRelations(old(relations), []) == old(relations) by {
        LoadNoRelations(old(relations));
      }
      for n := 0 to |records|
        invariant relations == LoadRelations(old(relations), PackageRelations(records[..n]))
      {
        LoadInParts(old(relations), PackageRelations(records[..n]), records[n].relations);
        InsertMissing(records[n].relations);
        NextPrefix(records, n);
      }
      assert records[..|records|] == records;
    }

    /** The relations that are not stored yet, in turn. */
    method InsertMissing(rs: seq<Relation>)
      modifies this`relations
      ensures relations == LoadRelations(old(relations), rs)
    {
      for k := 0 to |rs|
        invariant relations == LoadRelations(old(relations), rs[..k])
      {
        assert rs[..k + 1][..k] == rs[..k];
        if KeyOfRelation(rs[k]) !in relations {
          relations := relations[KeyOfRelation(rs[k]) := rs[k]];
        }
      }
      assert rs[..|rs|] == rs;
    }

    method SortedIds() returns (ids: seq<Id>)
      ensures forall id :: id in ids <==> id in memories
      ensures forall i, j :: 0 <= i < j < |ids| ==> ids[i] < ids[j]
    {
      ids := [];
      var todo := memories.Keys;
      while todo != {}
        invariant todo <= memories.Keys
        invariant forall id :: id in ids <==> id in memories && id !in todo
        invariant Ranking.Distinct(ids)
      {
        var id :| id in todo;
        ids := ids + [id];
        todo := todo - {id};
      }
      var before := (a: Id, b: Id) => a < b;
      Ranking.SortElements(before, ids);
      Ranking.SortOrdered(before, ids, Ranking.Elements(ids));
      ids := Ranking.Sort(before, ids);
      assert Ranking.Ordered(before, ids);
    }

    /** One consistent package: a record per live memory of the owner in the order of their ids. */
    method ExportMemories(owner: string) returns (records: seq<Record>)
      requires Aligned(View())
      ensures IsExport(View(), owner, records)
    {
      hide ExportOf, Aligned;
      var ids := SortedIds();
      records := [];
      for n := 0 to |ids|
        invariant forall i, j :: 0 <= i < j < |records| ==> records[i].memory.id < records[j].memory.id
        invariant forall i :: 0 <= i < |records| ==> ExportOf(View(), owner, records[i])
        invariant forall i :: 0 <= i < |records| && n < |ids| ==> records[i].memory.id < ids[n]
        invariant forall k :: 0 <= k < n && LiveFor(View(), owner, ids[k]) ==> InPackage(records, ids[k])
      {
        var record := ExportMemory(owner, ids[n]);
        if record.Some? {
          PackageGrows(records, record.value);
          records := records + [record.value];
        }
      }
      forall id | LiveFor(View(), owner, id) ensures InPackage(records, id) {
        assert id in ids;
      }
    }
  }

  lemma PackageGrows(records: seq<Record>, r: Record)
    ensures forall id :: InPackage(records + [r], id) <==> InPackage(records, id) || id == r.memory.id
  {
    forall id ensures InPackage(records + [r], id) <==> InPackage(records, id) || id == r.memory.id {
      assert (records + [r])[..|records + [r]| - 1] == records;
      PackageLast(records + [r], id);
    }
  }

  // ---------------------------------------------------------------- unit of work

  class UnitOfWork {
    const store: InMemoryStore
    var snapshot: Option<Store>

    constructor (store: InMemoryStore)
      ensures this.store == store && snapshot == None
    {
      this.store := store;
      snapshot := None;
    }

    method Enter()
      modifies this
      ensures snapshot == Some(store.View())
    {
      snapshot := Some(store.View());
    }

    /** Leaving with an exception restores all seven components; leaving normally keeps them. */
    method Exit(raised: bool)
      modifies store
      ensures store.View() == if raised && snapshot.Some? then snapshot.value else old(store.View())
    {
      if raised && snapshot.Some? {
        store.Assign(snapshot.value);
      }
    }
  }

  // ---------------------------------------------------------------- service

  class MemoryApplicationService {
    const store: InMemoryStore

    constructor (store: InMemoryStore)
      ensures this.store == store
    {
      this.store := store;
    }

    /** What one transaction owes its caller: the specified answer, and on success the specified
        store. What it leaves behind when it raises is for the unit of work to undo. */
    static ghost predicate Body(before: Store, after: Store, d: Result<Outcome>, r: Result<Reply>) {
      r == ReplyOf(d) && (d.Ok? ==> after == Commit(before, d.value.effect))
    }

    method WriteBody(env: Env, c: WriteCommand) returns (r: Result<Reply>, prior: Option<Memory>)
      requires ValidOwner(c.owner)
      modifies store
      ensures Body(old(store.View()), store.View(), DecideWrite(old(store.View()), env, c), r)
      ensures r == Ok(Existing) ==>
          prior.Some? && prior.value in store.memories.Values && Holds(prior.value, WriteKey(c.owner, c.key.value))
    {
      hide Construct, ValidOwner;
      prior := None;
      if c.key.Some? && c.key.value != "" {
        var lookup := store.FindByKey(WriteKey(c.owner, c.key.value));
        if lookup.Err? {
          return Err(lookup.error), None;
        }
        if lookup.value.Some? {
          if lookup.value.value.1 != WriteFingerprint(c) {
            return Err(IdempotencyConflict), None;
          }
          return Ok(Existing), Some(lookup.value.value.0);
        }
      }
      var v := Embed(env.provider, c.content);
      if v.Err? {
        return Err(v.error), None;
      }
      var m := Construct(Draft(c, env));
      if m.Err? {
        return Err(m.error), None;
      }
      KeyIsText(Draft(c, env));
      var created := store.CreateMemory(m.value, WriteFingerprint(c), v.value);
      r := Ok(Created(m.value));
    }

    method CaptureBody(env: Env, c: CaptureCommand) returns (r: Result<Reply>, prior: Option<Memory>)
      requires CaptureAllowed(c).Ok?
      modifies store
      ensures Body(old(store.View()), store.View(), DecideCapture(old(store.View()), env, c), r)
      ensures r == Ok(Existing) ==>
          prior.Some? && prior.value in store.memories.Values && Holds(prior.value, WriteKey(c.owner, c.key))
    {
      hide Construct, CaptureAllowed;
      prior := None;
      var lookup := store.FindByKey(WriteKey(c.owner, c.key));
      if lookup.Err? {
        return Err(lookup.error), None;
      }
      if lookup.value.Some? {
        if lookup.value.value.1 != CaptureFingerprint(c) {
          return Err(IdempotencyConflict), None;
        }
        return Ok(Existing), Some(lookup.value.value.0);
      }
      var v := Embed(env.provider, c.content);
      if v.Err? {
        return Err(v.error), None;
      }
      var m := Construct(CaptureDraft(c, env));
      if m.Err? {
        return Err(m.error), None;
      }
      KeyIsText(CaptureDraft(c, env));
      var created := store.CreateMemory(m.value, CaptureFingerprint(c), v.value);
      r := Ok(Created(m.value));
    }

    /** Claims the key, or answers a repeated command with the version its row remembers. */
    method ClaimOrReplay(key: OperationKey, f: Fingerprint, owner: string, tenant: Option<string>, id: Id,
                         expected: int)
      returns (r: Result<Option<Memory>>)
      modifies store
      ensures
        var prior := Claim(old(store.View()), key, f);
        && (prior.Err? ==> r == Err(prior.error))
        && (prior == Ok(None) ==> r == Ok(None) && store.View() == Claimed(old(store.View()), key, f))
        && (prior.Ok? && prior.value.Some? ==>
              var version := GetVersion(old(store.View()), owner, OrElse(prior.value.value.memoryId, id),
                                        OrElse(prior.value.value.resultVersion, expected), tenant);
              && store.View() == old(store.View())
              && r == (if version.Ok? then Ok(Some(version.value)) else Err(version.error)))
    {
      hide Claim, GetVersion;
      var claim := store.ClaimOperation(key, f);
      if claim.Err? {
        return Err(claim.error);
      }
      if claim.value.None? {
        return Ok(None);
      }
      var replay := store.GetMemoryVersion(owner, OrElse(claim.value.value.memoryId, id),
                                           OrElse(claim.value.value.resultVersion, expected), tenant);
      return if replay.Err? then Err(replay.error) else Ok(Some(replay.value));
    }

    /** The writing half of a confirm or a pin: the new version, and the claim completed. */
    method StoreVersion(ghost before: Store, key: OperationKey, f: Fingerprint, m: Memory, reason: string, v: Vector,
                        status: string)
      requires store.View() == Claimed(before, key, f)
      requires m.id in before.memories && NextVersion(before.memories[m.id], m)
      modifies store
      ensures
        var entry := Entry(key, Row(f, m.id, Some(m.version), status));
        store.View() == Commit(before, Advance(m, reason, v, None, Some(entry)))
    {
      var put := store.UpdateMemory(m, m.version - 1, Snapshot(m, reason), v);
      var done := store.CompleteOperation(key, f, m.id, Some(m.version), status);
    }

    method ConfirmBody(env: Env, c: ConfirmCommand) returns (r: Result<Reply>)
      requires MutationAllowed(c.scopes, "memory:write", c.tenant, c.owner, c.revoked).Ok?
      requires Aligned(store.View())
      modifies store
      ensures Body(old(store.View()), store.View(), DecideConfirm(old(store.View()), env, c), r)
    {
      hide MutationAllowed, GetVersion, Embed, CompleteHistory, Evolve;
      var key := OperationKey(c.owner, ConfirmOp, c.key);
      var claim := ClaimOrReplay(key, ConfirmFingerprint(c), c.owner, Some(c.tenant), c.memoryId, c.expectedVersion);
      if claim.Err? {
        return Err(claim.error);
      }
      if claim.value.Some? {
        return Ok(Returned(claim.value.value));
      }
      var current := store.GetMemory(c.owner, c.memoryId, Some(c.tenant));
      if current.None? {
        return Err(NotFound);
      }
      if current.value.version != c.expectedVersion {
        return Err(VersionConflict);
      }
      if current.value.state !in {Candidate, Stale} {
        return Err(InvalidTransition);
      }
      var updated := Evolve(current.value, env.now, ConfirmChanges(c, env), c.reason, None);
      if updated.Err? {
        return Err(updated.error);
      }
      EvolveIsNextVersion(current.value, env.now, ConfirmChanges(c, env), c.reason, None);
      var v := Embed(env.provider, updated.value.content);
      if v.Err? {
        return Err(v.error);
      }
      StoreVersion(old(store.View()), key, ConfirmFingerprint(c), updated.value, c.reason, v.value, "confirmed");
      return Ok(Returned(updated.value));
    }

    method PinBody(env: Env, c: PinCommand) returns (r: Result<Reply>)
      requires MutationAllowed(c.scopes, "memory:write", c.tenant, c.owner, c.revoked).Ok?
      requires Aligned(store.View())
      modifies store
      ensures Body(old(store.View()), store.View(), DecidePin(old(store.View()), env, c), r)
    {
      hide MutationAllowed, GetVersion, Embed, CompleteHistory, Evolve;
      var key := OperationKey(c.owner, PinOp, c.key);
      var claim := ClaimOrReplay(key, PinFingerprint(c), c.owner, Some(c.tenant), c.memoryId, c.expectedVersion);
      if claim.Err? {
        return Err(claim.error);
      }
      if claim.value.Some? {
        return Ok(Returned(claim.value.value));
      }
      var current := store.GetMemory(c.owner, c.memoryId, Some(c.tenant));
      if current.None? {
        return Err(NotFound);
      }
      if current.value.version != c.expectedVersion {
        return Err(VersionConflict);
      }
      if current.value.state !in {Confirmed, Pinned} {
        return Err(InvalidTransition);
      }
      if current.value.state == PinTarget(c) {
        var done := store.CompleteOperation(key, PinFingerprint(c), current.value.id, Some(current.value.version),
            PinLabel(c));
        return Ok(Returned(current.value));
      }
      var changes := Changes(None, None, None, None, Some(PinTarget(c)), None, None, None, None);
      var reason := if c.pinned then "pinned" else "unpinned";
      var updated := Evolve(current.value, env.now, changes, reason, None);
      if updated.Err? {
        return Err(updated.error);
      }
      EvolveIsNextVersion(current.value, env.now, changes, reason, None);
      var v := Embed(env.provider, updated.value.content);
      if v.Err? {
        return Err(v.error);
      }
      StoreVersion(old(store.View()), key, PinFingerprint(c), updated.value, PinLabel(c), v.value, PinLabel(c));
      return Ok(Returned(updated.value));
    }

    method DiscardBody(c: DiscardCommand) returns (r: Result<Reply>)
      requires MutationAllowed(c.scopes, "memory:delete", c.tenant, c.owner, c.revoked).Ok?
      modifies store
      ensures Body(old(store.View()), store.View(), DecideDiscard(old(store.View()), c), r)
    {
      hide MutationAllowed;
      var key := OperationKey(c.owner, DiscardOp, c.key);
      var claim := store.ClaimOperation(key, DiscardFingerprint(c));
      if claim.Err? {
        return Err(claim.error);
      }
      if claim.value.Some? {
        return Ok(Gone(c.memoryId, claim.value.value.resultStatus == Some("forgotten")));
      }
      var current := store.GetMemory(c.owner, c.memoryId, Some(c.tenant));
      if current.None? {
        return Err(NotFound);
      }
      if current.value.version != c.expectedVersion {
        return Err(VersionConflict);
      }
      if current.value.state != Candidate {
        return Err(InvalidTransition);
      }
      var forgotten := store.ForgetMemory(c.owner, c.memoryId, Some(c.tenant));
      var done := store.CompleteOperation(key, DiscardFingerprint(c), c.memoryId, None,
                                          if forgotten then "forgotten" else "already_absent");
      return Ok(Gone(c.memoryId, forgotten));
    }

    method ForgetBody(c: ForgetCommand) returns (r: Result<Reply>)
      requires ValidOwner(c.owner)
      modifies store
      ensures Body(old(store.View()), store.View(), DecideForget(old(store.View()), c), r)
    {
      hide ValidOwner;
      var key := LedgerKey(c.owner, ForgetOp, c.key);
      var f := ForgetDigest(c.owner, c.memoryId);
      if key.Some? {
        var claim := store.ClaimOperation(key.value, f);
        if claim.Err? {
          return Err(claim.error);
        }
        if claim.value.Some? {
          return Ok(Gone(c.memoryId, false));
        }
      }
      var forgotten := store.ForgetMemory(c.owner, c.memoryId, c.tenant);
      if key.Some? {
        var done := store.CompleteOperation(key.value, f, c.memoryId, None,
                                            if forgotten then "forgotten" else "already_absent");
      }
      return Ok(Gone(c.memoryId, forgotten));
    }

    method RelateBody(env: Env, c: RelateCommand) returns (r: Result<Reply>)
      requires ValidOwner(c.owner) && c.kind.Some? && c.source != c.target
      modifies store
      ensures Body(old(store.View()), store.View(), DecideRelate(old(store.View()), env, c), r)
    {
      hide ValidOwner;
      var source := store.GetMemory(c.owner, c.source, None);
      var target := store.GetMemory(c.owner, c.target, None);
      if source.None? || target.None? {
        return Err(NotFound);
      }
      var relation := Relation(c.source, c.target, c.kind.value, c.owner, env.now);
      var added := store.AddRelation(relation);
      if added.Err? {
        return Err(added.error);
      }
      return Ok(Linked(relation));
    }

    method UpdateBody(env: Env, c: UpdateCommand) returns (r: Result<Reply>)
      requires ValidOwner(c.owner) && Aligned(store.View())
      modifies store
      ensures Body(old(store.View()), store.View(), DecideUpdate(old(store.View()), env, c), r)
    {
      hide ValidOwner, GetVersion, Embed, CompleteHistory, Evolve, RelatedExists;
      var key := LedgerKey(c.owner, UpdateOp, c.key);
      if key.Some? {
        var claim := ClaimOrReplay(key.value, UpdateFingerprint(c), c.owner, None, c.memoryId, c.expectedVersion);
        if claim.Err? {
          return Err(claim.error);
        }
        if claim.value.Some? {
          return Ok(Returned(claim.value.value));
        }
        ClaimIsInvisible(old(store.View()), env, c, key.value);
      }
      hide FreshUpdate, Commit, Aligned;
      r := UpdateFresh(env, c, key);
    }

    method UpdateFresh(env: Env, c: UpdateCommand, key: Option<OperationKey>) returns (r: Result<Reply>)
      requires Aligned(store.View())
      requires key.Some? ==>
          key.value in store.operations && store.operations[key.value] == OpenRow(UpdateFingerprint(c))
      modifies store
      ensures Body(old(store.View()), store.View(), FreshUpdate(old(store.View()), env, c, key), r)
    {
      hide Embed, CompleteHistory, Evolve;
      var current := store.GetMemory(c.owner, c.memoryId, None);
      if current.None? {
        return Err(NotFound);
      }
      if current.value.version != c.expectedVersion {
        return Err(VersionConflict);
      }
      if c.supersedes.Some? && c.contradicts.Some? {
        return Err(ValidationError);
      }
      var related := Related(c);
      if related.Some? {
        if related.value == current.value.id {
          return Err(ValidationError);
        }
        var other := store.GetMemory(c.owner, related.value, None);
        if other.None? {
          return Err(NotFound);
        }
      }
      var updated := Evolve(current.value, env.now, UpdateChanges(c, env), c.reason, related);
      if updated.Err? {
        return Err(updated.error);
      }
      EvolveIsNextVersion(current.value, env.now, UpdateChanges(c, env), c.reason, related);
      var v := Embed(env.provider, updated.value.content);
      if v.Err? {
        return Err(v.error);
      }
      r := StoreUpdate(env, c, key, current.value, updated.value, v.value);
    }

    // -------------------------------------------------------------- import

    method ValidatePackage(owner: string, records: seq<Record>) returns (ok: bool, ids: set<Id>)
      ensures ok <==> DistinctIds(records) && forall i :: 0 <= i < |records| ==> ValidRecord(owner, records[i])
      ensures ok ==> forall id :: id in ids <==> InPackage(records, id)
    {
      hide ValidRecord;
      ids := {};
      for n := 0 to |records|
        invariant DistinctIds(records[..n]) && forall i :: 0 <= i < n ==> ValidRecord(owner, records[i])
        invariant forall id :: id in ids <==> InPackage(records[..n], id)
      {
        NextPrefix(records, n);
        forall id ensures InPackage(records[..n + 1], id) <==>
            InPackage(records[..n], id) || id == records[n].memory.id {
          PackageLast(records[..n + 1], id);
        }
        if records[n].memory.id in ids {
          var i :| 0 <= i < n && records[..n][i].memory.id == records[n].memory.id;
          assert records[i].memory.id == records[n].memory.id;
          return false, ids;
        }
        ids := ids + {records[n].memory.id};
        if !ValidRecord(owner, records[n]) {
          return false, ids;
        }
        assert forall i :: 0 <= i < n ==> records[..n][i].memory.id != records[n].memory.id;
      }
      assert records[..|records|] == records;
      return true, ids;
    }

    method CheckEndpoints(owner: string, records: seq<Record>, ids: set<Id>) returns (ok: bool)
      requires forall id :: id in ids <==> InPackage(records, id)
      ensures ok <==> EndpointsExist(store.View(), owner, records)
    {
      hide InPackage;
      for n := 0 to |records|
        invariant forall i, j :: 0 <= i < n && 0 <= j < |records[i].relations| ==>
          && Reaches(store.View(), owner, records, records[i].relations[j].source)
          && Reaches(store.View(), owner, records, records[i].relations[j].target)
      {
        for k := 0 to |records[n].relations|
          invariant forall j :: 0 <= j < k ==>
            && Reaches(store.View(), owner, records, records[n].relations[j].source)
            && Reaches(store.View(), owner, records, records[n].relations[j].target)
        {
          var relation := records[n].relations[k];
          var source := store.GetMemory(owner, relation.source, None);
          var target := store.GetMemory(owner, relation.target, None);
          if (relation.source !in ids && source.None?) || (relation.target !in ids && target.None?) {
            assert !Reaches(store.View(), owner, records, relation.source)
                || !Reaches(store.View(), owner, records, relation.target);
            return false;
          }
        }
      }
      return true;
    }

    method ScreenPackage(owner: string, records: seq<Record>) returns (r: Result<()>, existing: set<Id>)
      ensures r.Ok? <==> Screen(store.View(), owner, records).Ok?
      ensures r.Err? ==> r.error == Screen(store.View(), owner, records).error
      ensures r.Ok? ==> forall i :: 0 <= i < |records| ==>
                          (records[i].memory.id in existing <==>
                              Get(store.View(), owner, records[i].memory.id, None).Some?)
    {
      hide ScreenRecord, Get;
      existing := {};
      for n := 0 to |records|
        invariant Screen(store.View(), owner, records[..n]).Ok?
        invariant forall id :: id in existing ==> Get(store.View(), owner, id, None).Some?
        invariant forall i :: 0 <= i < n && Get(store.View(), owner, records[i].memory.id, None).Some? ==>
            records[i].memory.id in existing
      {
        NextPrefix(records, n);
        var verdict := ScreenRecord(store.View(), owner, records[n]);
        if verdict.Err? {
          ScreenFails(store.View(), owner, records, n + 1);
          return verdict, existing;
        }
        var current := store.GetMemory(owner, records[n].memory.id, None);
        if current.Some? {
          existing := existing + {records[n].memory.id};
        }
      }
      assert records[..|records|] == records;
      return Ok(()), existing;
    }

    method PreparePackage(env: Env, owner: string, records: seq<Record>, existing: set<Id>)
      returns (r: Result<seq<Record>>)
      requires forall i :: 0 <= i < |records| ==>
                 (records[i].memory.id in existing <==> Get(store.View(), owner, records[i].memory.id, None).Some?)
      ensures r == Prepare(store.View(), env, owner, records)
    {
      hide Get, Embed;
      var prepared: seq<Record> := [];
      for n := 0 to |records|
        invariant Prepare(store.View(), env, owner, records[..n]) == Ok(prepared)
      {
        NextPrefix(records, n);
        var record := records[n];
        if record.memory.id in existing || record.embedding.Some? {
          prepared := prepared + [record];
        } else if record.memory.embedding != Some(env.provider.profile) {
          PrepareFails(store.View(), env, owner, records, n + 1);
          return Err(ProfileMismatch);
        } else {
          var v := Embed(env.provider, record.memory.content);
          if v.Err? {
            PrepareFails(store.View(), env, owner, records, n + 1);
            return Err(v.error);
          }
          prepared := prepared + [record.(embedding := Some(v.value))];
        }
      }
      assert records[..|records|] == records;
      return Ok(prepared);
    }

    method ImportBody(env: Env, owner: string, records: seq<Record>) returns (r: Result<Reply>)
      requires ValidOwner(owner)
      modifies store
      ensures Body(old(store.View()), store.View(), DecideImport(old(store.View()), env, owner, records), r)
    {
      hide ValidOwner, ValidRecord, EndpointsExist, Screen, Prepare, Admit, CountNew, Commit, InPackage, Get;
      var valid, ids := ValidatePackage(owner, records);
      if !valid {
        return Err(ValidationError);
      }
      var reachable := CheckEndpoints(owner, records, ids);
      if !reachable {
        return Err(NotFound);
      }
      var screened, existing := ScreenPackage(owner, records);
      if screened.Err? {
        return Err(screened.error);
      }
      var prepared := PreparePackage(env, owner, records, existing);
      if prepared.Err? {
        return Err(prepared.error);
      }
      PreparedPackage(store.View(), env, owner, records);
      PreparedVectors(store.View(), env, owner, records);
      DistinctTake(store.View(), prepared.value);
      LoadCommits(store.View(), prepared.value);
      var done := store.ImportRecords(prepared.value);
      if done.Err? {
        return Err(done.error);
      }
      return Ok(ImportReport(done.value.0, done.value.1));
    }

    // -------------------------------------------------------------- transactions

    method Write(env: Env, c: WriteCommand) returns (r: Result<Reply>, prior: Option<Memory>)
      modifies store
      ensures store.View() == Apply(old(store.View()), env, Command.Write(c))
      ensures r == ReplyOf(Decide(old(store.View()), env, Command.Write(c)))
      ensures r == Ok(Existing) ==>
          prior.Some? && prior.value in store.memories.Values && Holds(prior.value, WriteKey(c.owner, c.key.value))
    {
      if !ValidOwner(c.owner) {
        return Err(ValidationError), None;
      }
      hide ValidOwner, DecideWrite, Commit;
      var uow := new UnitOfWork(store);
      uow.Enter();
      r, prior := WriteBody(env, c);
      uow.Exit(r.Err?);
    }

    method Capture(env: Env, c: CaptureCommand) returns (r: Result<Reply>, prior: Option<Memory>)
      modifies store
      ensures store.View() == Apply(old(store.View()), env, Command.Capture(c))
      ensures r == ReplyOf(Decide(old(store.View()), env, Command.Capture(c)))
      ensures r == Ok(Existing) ==>
          prior.Some? && prior.value in store.memories.Values && Holds(prior.value, WriteKey(c.owner, c.key))
    {
      var allowed := CaptureAllowed(c);
      if allowed.Err? {
        return Err(allowed.error), None;
      }
      hide CaptureAllowed, DecideCapture, Commit;
      var uow := new UnitOfWork(store);
      uow.Enter();
      r, prior := CaptureBody(env, c);
      uow.Exit(r.Err?);
    }

    method Confirm(env: Env, c: ConfirmCommand) returns (r: Result<Reply>)
      requires Aligned(store.View())
      modifies store
      ensures store.View() == Apply(old(store.View()), env, Command.Confirm(c))
      ensures r == ReplyOf(Decide(old(store.View()), env, Command.Confirm(c)))
    {
      var allowed := MutationAllowed(c.scopes, "memory:write", c.tenant, c.owner, c.revoked);
      if allowed.Err? {
        return Err(allowed.error);
      }
      hide MutationAllowed, DecideConfirm, Commit, Aligned;
      var uow := new UnitOfWork(store);
      uow.Enter();
      r := ConfirmBody(env, c);
      uow.Exit(r.Err?);
    }

    method Pin(env: Env, c: PinCommand) returns (r: Result<Reply>)
      requires Aligned(store.View())
      modifies store
      ensures store.View() == Apply(old(store.View()), env, Command.Pin(c))
      ensures r == ReplyOf(Decide(old(store.View()), env, Command.Pin(c)))
    {
      var allowed := MutationAllowed(c.scopes, "memory:write", c.tenant, c.owner, c.revoked);
      if allowed.Err? {
        return Err(allowed.error);
      }
      hide MutationAllowed, DecidePin, Commit, Aligned;
      var uow := new UnitOfWork(store);
      uow.Enter();
      r := PinBody(env, c);
      uow.Exit(r.Err?);
    }

    method Discard(env: Env, c: DiscardCommand) returns (r: Result<Reply>)
      modifies store
      ensures store.View() == Apply(old(store.View()), env, Command.Discard(c))
      ensures r == ReplyOf(Decide(old(store.View()), env, Command.Discard(c)))
    {
      var allowed := MutationAllowed(c.scopes, "memory:delete", c.tenant, c.owner, c.revoked);
      if allowed.Err? {
        return Err(allowed.error);
      }
      hide MutationAllowed, DecideDiscard, Commit;
      var uow := new UnitOfWork(store);
      uow.Enter();
      r := DiscardBody(c);
      uow.Exit(r.Err?);
    }

    method Update(env: Env, c: UpdateCommand) returns (r: Result<Reply>)
      requires Aligned(store.View())
      modifies store
      ensures store.View() == Apply(old(store.View()), env, Command.Update(c))
      ensures r == ReplyOf(Decide(old(store.View()), env, Command.Update(c)))
    {
      if !ValidOwner(c.owner) {
        return Err(ValidationError);
      }
      hide ValidOwner, DecideUpdate, Commit, Aligned;
      var uow := new UnitOfWork(store);
      uow.Enter();
      r := UpdateBody(env, c);
      uow.Exit(r.Err?);
    }

    method Forget(env: Env, c: ForgetCommand) returns (r: Result<Reply>)
      modifies store
      ensures store.View() == Apply(old(store.View()), env, Command.Forget(c))
      ensures r == ReplyOf(Decide(old(store.View()), env, Command.Forget(c)))
    {
      if !ValidOwner(c.owner) {
        return Err(ValidationError);
      }
      hide ValidOwner, DecideForget, Commit;
      var uow := new UnitOfWork(store);
      uow.Enter();
      r := ForgetBody(c);
      uow.Exit(r.Err?);
    }

    method Relate(env: Env, c: RelateCommand) returns (r: Result<Reply>)
      modifies store
      ensures store.View() == Apply(old(store.View()), env, Command.Relate(c))
      ensures r == ReplyOf(Decide(old(store.View()), env, Command.Relate(c)))
    {
      if !ValidOwner(c.owner) || c.kind.None? || c.source == c.target {
        return Err(ValidationError);
      }
      hide ValidOwner, DecideRelate, Commit;
      var uow := new UnitOfWork(store);
      uow.Enter();
      r := RelateBody(env, c);
      uow.Exit(r.Err?);
    }

    method ImportMemories(env: Env, owner: string, records: seq<Record>) returns (r: Result<Reply>)
      modifies store
      ensures store.View() == Apply(old(store.View()), env, Import(owner, records))
      ensures r == ReplyOf(Decide(old(store.View()), env, Import(owner, records)))
    {
      ImportApplies(store.View(), env, owner, records);
      hide ValidOwner, DecideImport, Commit, Decide, Apply;
      if !ValidOwner(owner) {
        return Err(ValidationError);
      }
      var uow := new UnitOfWork(store);
      uow.Enter();
      r := ImportBody(env, owner, records);
      uow.Exit(r.Err?);
    }

    /** The writing half of an update: new version, relation, completed claim. */
    method StoreUpdate(env: Env, c: UpdateCommand, key: Option<OperationKey>, before: Memory, m: Memory, v: Vector)
      returns (r: Result<Reply>)
      requires m.id in store.memories && store.memories[m.id] == before && before.version == c.expectedVersion
      requires NextVersion(before, m) && m.owner == c.owner
      requires LinkOf(c, m.id, env.now).Some? ==>
          Get(store.View(), c.owner, LinkOf(c, m.id, env.now).value.target, None).Some?
      requires key.Some? ==>
          key.value in store.operations && store.operations[key.value] == OpenRow(UpdateFingerprint(c))
      modifies store
      ensures
        var link := LinkOf(c, m.id, env.now);
        var entry := SettleIfKeyed(key, Row(UpdateFingerprint(c), m.id, Some(m.version), "updated"));
        && r == (if link.Some? && KeyOfRelation(link.value) in old(store.relations) then Err(RelationConflict)
                 else Ok(Returned(m)))
        && (r.Ok? ==> store.View() == Commit(old(store.View()), Advance(m, c.reason, v, link, entry)))
    {
      hide UpdateFingerprint;
      var put := store.UpdateMemory(m, c.expectedVersion, Snapshot(m, c.reason), v);
      var link := LinkOf(c, m.id, env.now);
      if link.Some? {
        var added := store.AddRelation(link.value);
        if added.Err? {
          return Err(added.error);
        }
      }
      if key.Some? {
        var done := store.CompleteOperation(key.value, UpdateFingerprint(c), m.id, Some(m.version), "updated");
      }
      return Ok(Returned(m));
    }
  }

  // ---------------------------------------------------------------- packages, prefix by prefix

  lemma ImportApplies(s: Store, env: Env, owner: string, records: seq<Record>)
    ensures Decide(s, env, Import(owner, records)) == DecideImport(s, env, owner, records)
    ensures
      var d := DecideImport(s, env, owner, records);
      Apply(s, env, Import(owner, records)) == if d.Ok? then Commit(s, d.value.effect) else s
    ensures !ValidOwner(owner) ==> DecideImport(s, env, owner, records) == Err(ValidationError)
  {
    ApplyImport(s, env, owner, records);
    hide Commit, ValidOwner, ValidRecord, EndpointsExist, Screen, Prepare, Admit, CountNew, DistinctIds;
  }

  lemma NextPrefix(records: seq<Record>, n: nat)
    requires n < |records|
    ensures records[..n + 1][..n] == records[..n] && records[..n + 1][n] == records[n]
  {
  }

  lemma LoadNoRelations(relations: map<RelationKey, Relation>)
    ensures LoadRelations(relations, []) == relations
  {
  }

  lemma {:induction false} LoadInParts(relations: map<RelationKey, Relation>, a: seq<Relation>, b: seq<Relation>)
    ensures LoadRelations(relations, a + b) == LoadRelations(LoadRelations(relations, a), b)
    decreases |b|
  {
    hide LoadRelation;
    if b == [] {
      assert a + b == a;
    } else {
      LoadInParts(relations, a, b[..|b| - 1]);
      assert (a + b)[..|a + b| - 1] == a + b[..|b| - 1];
    }
  }

  /** Inserting earlier records does not change what a later one is compared with. */
  lemma SameAdmission(s: Store, records: seq<Record>, n: nat)
    requires DistinctIds(records) && n < |records|
    ensures
      var t := LoadRecords(s, records[..n]);
      && t.tombstones == s.tombstones
      && (records[n].memory.id in t.memories <==> records[n].memory.id in s.memories)
      && (records[n].memory.id in s.memories ==> t.memories[records[n].memory.id] == s.memories[records[n].memory.id])
  {
    LoadedFrame(s, records[..n]);
    assert !InPackage(records[..n], records[n].memory.id);
  }

  lemma TakenMemories(s: Store, r: Record)
    ensures TakeRecord(s, r).Ok? ==>
              |TakeRecord(s, r).value.memories| == |s.memories| + if r.memory.id in s.memories then 0 else 1
  {
  }

  lemma {:induction false} TakeFails(s: Store, records: seq<Record>, n: nat)
    requires n <= |records| && TakeRecords(s, records[..n]).Err?
    ensures TakeRecords(s, records) == TakeRecords(s, records[..n])
    decreases |records|
  {
    if n < |records| {
      assert records[..|records| - 1][..n] == records[..n];
      TakeFails(s, records[..|records| - 1], n);
    } else {
      assert records[..n] == records;
    }
  }

  /** When no id is repeated and no vector is missing, taking the records in turn is admitting them
      all against the store as it was, and loading them. */
  lemma {:induction false} DistinctTake(s: Store, records: seq<Record>)
    requires DistinctIds(records)
    requires forall i :: 0 <= i < |records| ==> records[i].memory.id in s.memories || records[i].embedding.Some?
    ensures TakeRecords(s, records) ==
            if Admit(s, records).Ok? then Ok(LoadRecords(s, records)) else Err(Admit(s, records).error)
    ensures Admit(s, records).Ok? ==> |LoadRecords(s, records).memories| == |s.memories| + CountNew(s, records)
    decreases |records|
  {
    if records != [] {
      hide LoadRecord;
      var rest, n := records[..|records| - 1], |records| - 1;
      DistinctTake(s, rest);
      SameAdmission(s, records, n);
      if Admit(s, rest).Ok? {
        OneTaken(LoadRecords(s, rest), s, records[n]);
      }
    }
  }

  lemma LoadCommits(s: Store, records: seq<Record>)
    ensures
      var t := LoadRecords(s, records);
      Commit(s, Load(records)) == t.(relations := LoadRelations(t.relations, PackageRelations(records)))
  {
  }

  lemma OneTaken(t: Store, s: Store, r: Record)
    requires t.tombstones == s.tombstones && (r.memory.id in t.memories <==> r.memory.id in s.memories)
    requires r.memory.id in s.memories ==> t.memories[r.memory.id] == s.memories[r.memory.id]
    requires r.memory.id in s.memories || r.embedding.Some?
    ensures TakeRecord(t, r) == if AdmitRecord(s, r).Ok? then Ok(LoadRecord(t, r)) else Err(AdmitRecord(s, r).error)
    ensures |LoadRecord(t, r).memories| == |t.memories| + if r.memory.id in s.memories then 0 else 1
  {
  }

  lemma PreparedVectors(s: Store, env: Env, owner: string, records: seq<Record>)
    requires Prepare(s, env, owner, records).Ok?
    requires forall i :: 0 <= i < |records| ==> ValidRecord(owner, records[i])
    ensures
      var p := Prepare(s, env, owner, records).value;
      forall i :: 0 <= i < |p| ==> p[i].memory.id in s.memories || p[i].embedding.Some?
  {
    hide Prepare, PrepareRecord, ValidRecord;
    var p := Prepare(s, env, owner, records).value;
    PreparedPackage(s, env, owner, records);
    forall i | 0 <= i < |p| ensures p[i].memory.id in s.memories || p[i].embedding.Some? {
      PreparedEach(s, env, owner, records, i);
      PreparedRecord(s, env, owner, records[i]);
    }
  }

  lemma {:induction false} ScreenFails(s: Store, owner: string, records: seq<Record>, n: nat)
    requires n <= |records| && Screen(s, owner, records[..n]).Err?
    ensures Screen(s, owner, records) == Screen(s, owner, records[..n])
    decreases |records|
  {
    if n < |records| {
      assert records[..|records| - 1][..n] == records[..n];
      ScreenFails(s, owner, records[..|records| - 1], n);
    } else {
      assert records[..n] == records;
    }
  }

  lemma {:induction false} PrepareFails(s: Store, env: Env, owner: string, records: seq<Record>, n: nat)
    requires n <= |records| && Prepare(s, env, owner, records[..n]).Err?
    ensures Prepare(s, env, owner, records) == Prepare(s, env, owner, records[..n])
    decreases |records|
  {
    if n < |records| {
      assert records[..|records| - 1][..n] == records[..n];
      PrepareFails(s, env, owner, records[..|records| - 1], n);
    } else {
      assert records[..n] == records;
    }
  }

  /** An update does not see its own claim, and completing the claim overwrites it. */
  lemma ClaimIsInvisible(s: Store, env: Env, c: UpdateCommand, key: OperationKey)
    ensures FreshUpdate(Claimed(s, key, UpdateFingerprint(c)), env, c, Some(key)) == FreshUpdate(s, env, c, Some(key))
    ensures
      var d := FreshUpdate(s, env, c, Some(key));
      d.Ok? ==> Commit(Claimed(s, key, UpdateFingerprint(c)), d.value.effect) == Commit(s, d.value.effect)
  {
    hide Embed, Evolve;
  }

  lemma KeyIsText(m: Memory)
    requires Construct(m).Ok?
    ensures Construct(m).value.owner == m.owner && Construct(m).value.idempotencyKey == m.idempotencyKey
    ensures ValidLabel(m.idempotencyKey) && (m.idempotencyKey.Some? ==> m.idempotencyKey.value != "")
  {
  }
}
