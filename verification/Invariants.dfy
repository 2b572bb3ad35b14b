/** What every transaction keeps, whatever the command and whatever its outcome. */
module StoreInvariants {
  import opened Domain
  import opened MemoryStore

  // ---------------------------------------------------------------- the invariant

  /** Memories, vectors and histories have the same ids, and each history is versions 1..n. */
  ghost predicate Aligned(s: Store) {
    && s.memories.Keys == s.vectors.Keys == s.history.Keys
    && forall id :: id in s.memories ==>
         s.memories[id].id == id && CompleteHistory(s.memories[id], s.history[id])
  }

  ghost predicate LiveFor(s: Store, owner: string, id: Id) {
    id in s.memories && s.memories[id].owner == owner
  }

  /** Every relation joins two distinct live memories of its owner. */
  ghost predicate RelationsSound(s: Store) {
    forall k :: k in s.relations ==>
      && KeyOfRelation(s.relations[k]) == k
      && k.source != k.target && LiveFor(s, k.owner, k.source) && LiveFor(s, k.owner, k.target)
  }

  /** No row is left in progress. */
  ghost predicate LedgerSettled(s: Store) {
    forall k :: k in s.operations ==> s.operations[k].status == Completed
  }

  /** No live memory has the owner, tenant and id of a tombstone. */
  ghost predicate DeletionTerminal(s: Store) {
    forall id :: id in s.memories ==> Grave(s.memories[id]) !in s.tombstones
  }

  /** Every bound write key has a live holder, so replaying a write never finds nothing. */
  ghost predicate KeysHeld(s: Store) {
    forall w :: w in s.fingerprints ==> HasHolder(s, w) && ValidFingerprint(s.fingerprints[w])
  }

  ghost predicate Inv(s: Store) {
    Aligned(s) && RelationsSound(s) && LedgerSettled(s) && DeletionTerminal(s) && KeysHeld(s)
  }

  lemma AlignedOf(s: Store)
    requires Inv(s)
    ensures Aligned(s)
  {
  }

  // ---------------------------------------------------------------- legal calls

  /** Values that exist have passed their constructors. */
  ghost predicate WellFormed(c: Command) {
    c.Import? ==>
      forall i :: 0 <= i < |c.records| ==>
        ValidMemory(c.records[i].memory) && forall j :: 0 <= j < |c.records[i].relations| ==>
            ValidRelation(c.records[i].relations[j])
  }

  /** `uuid4` never returns an identifier that was used before. */
  ghost predicate Unused(s: Store, id: Id) {
    id !in s.memories && forall t :: t in s.tombstones ==> t.id != id
  }

  ghost predicate LegalStep(s: Store, step: Step) {
    WellFormed(step.command) && Unused(s, step.env.freshId)
  }

  ghost predicate LegalRun(s: Store, steps: seq<Step>) {
    forall i :: 0 <= i < |steps| ==> LegalStep(Run(s, steps[..i]), steps[i])
  }

  // ---------------------------------------------------------------- enabled effects

  ghost predicate EntryOpen(s: Store, e: Option<Entry>) {
    e.Some? ==> e.value.key !in s.operations && e.value.row.status == Completed
  }

  ghost predicate LinkOpen(s: Store, r: Relation) {
    && r.source != r.target && LiveFor(s, r.owner, r.source) && LiveFor(s, r.owner, r.target)
    && KeyOfRelation(r) !in s.relations
  }

  /** A change of state to superseded or contradicted carries the relation that says why. */
  ghost predicate Evidenced(before: Memory, after: Memory, link: Option<Relation>) {
    && (link.Some? ==> link.value.source == after.id && link.value.owner == after.owner)
    && (after.state == Superseded && before.state != Superseded ==> link.Some? && link.value.kind == Supersedes)
    && (after.state == Contradicted && before.state != Contradicted ==> link.Some? && link.value.kind == Contradicts)
  }

  ghost predicate Loadable(s: Store, owner: string, records: seq<Record>, r: Record) {
    && ValidRecord(owner, r)
    && Grave(r.memory) !in s.tombstones
    && (r.memory.id in s.memories ==> s.memories[r.memory.id] == r.memory)
    && forall j :: 0 <= j < |r.relations| ==>
         && r.relations[j].source != r.relations[j].target
         && Reaches(s, owner, records, r.relations[j].source) && Reaches(s, owner, records, r.relations[j].target)
  }

  ghost predicate LoadableFor(s: Store, owner: string, records: seq<Record>) {
    forall i :: 0 <= i < |records| ==> Loadable(s, owner, records, records[i])
  }

  ghost predicate Enabled(s: Store, e: Effect) {
    match e
    case Nothing => true
    case Settle(entry) => EntryOpen(s, Some(entry))
    case Create(m, f, v) =>
      && m.version == 1 && m.state in {Active, Candidate} && Unused(s, m.id)
      && ValidFingerprint(f)
      && (m.idempotencyKey.Some? ==> WriteKey(m.owner, m.idempotencyKey.value) !in s.fingerprints)
    case Advance(m, reason, v, link, entry) =>
      && m.id in s.memories && NextVersion(s.memories[m.id], m)
      && (link.Some? ==> LinkOpen(s, link.value))
      && Evidenced(s.memories[m.id], m, link) && EntryOpen(s, entry)
    case Erase(id, entry) => id in s.memories && EntryOpen(s, entry)
    case Link(r) => LinkOpen(s, r)
    case Load(records) =>
      DistinctIds(records) && exists owner :: LoadableFor(s, owner, records)
  }

  // ---------------------------------------------------------------- decisions only enable such effects

  lemma CreationEnabled(s: Store, env: Env, draft: Memory, f: Fingerprint, v: Vector)
    requires Unused(s, env.freshId) && draft.id == env.freshId && ValidFingerprint(f)
    requires Construct(draft).Ok? && draft.version == 1 && draft.state in {Active, Candidate}
    requires draft.idempotencyKey.Some? ==> WriteKey(draft.owner, draft.idempotencyKey.value) !in s.fingerprints
    ensures Enabled(s, Create(Construct(draft).value, f, v))
  {
    ConstructedIsValid(draft);
  }

  lemma WriteEnabled(s: Store, env: Env, c: WriteCommand)
    requires Unused(s, env.freshId) && DecideWrite(s, env, c).Ok?
    ensures Enabled(s, DecideWrite(s, env, c).value.effect)
  {
    var e := DecideWrite(s, env, c).value.effect;
    if e.Create? {
      CreationEnabled(s, env, Draft(c, env), WriteFingerprint(c), e.vector);
    }
  }

  lemma CaptureEnabled(s: Store, env: Env, c: CaptureCommand)
    requires Unused(s, env.freshId) && DecideCapture(s, env, c).Ok?
    ensures Enabled(s, DecideCapture(s, env, c).value.effect)
  {
    var e := DecideCapture(s, env, c).value.effect;
    if e.Create? {
      CreationEnabled(s, env, CaptureDraft(c, env), CaptureFingerprint(c), e.vector);
    }
  }

  lemma ConfirmEnabled(s: Store, env: Env, c: ConfirmCommand)
    requires Aligned(s) && DecideConfirm(s, env, c).Ok?
    ensures Enabled(s, DecideConfirm(s, env, c).value.effect)
  {
    var e := DecideConfirm(s, env, c).value.effect;
    if e.Advance? {
      EvolveIsNextVersion(s.memories[c.memoryId], env.now, ConfirmChanges(c, env), c.reason, None);
    }
  }

  lemma PinEnabled(s: Store, env: Env, c: PinCommand)
    requires Aligned(s) && DecidePin(s, env, c).Ok?
    ensures Enabled(s, DecidePin(s, env, c).value.effect)
  {
    var e := DecidePin(s, env, c).value.effect;
    if e.Advance? {
      var changes := Changes(None, None, None, None, Some(PinTarget(c)), None, None, None, None);
      EvolveIsNextVersion(s.memories[c.memoryId], env.now, changes, if c.pinned then "pinned" else "unpinned", None);
    }
  }

  lemma UpdateEnabled(s: Store, env: Env, c: UpdateCommand)
    requires Aligned(s) && DecideUpdate(s, env, c).Ok?
    ensures Enabled(s, DecideUpdate(s, env, c).value.effect)
  {
    hide Construct, Embed, Rebuild;
    var e := DecideUpdate(s, env, c).value.effect;
    if e.Advance? {
      var before := s.memories[c.memoryId];
      EvolveIsNextVersion(before, env.now, UpdateChanges(c, env), c.reason, Related(c));
      assert Evidenced(before, e.memory, e.link);
    }
  }

  lemma {:induction false} ScreenedEach(s: Store, owner: string, records: seq<Record>, i: nat)
    requires Screen(s, owner, records).Ok? && i < |records|
    ensures ScreenRecord(s, owner, records[i]).Ok?
    decreases |records|
  {
    if i < |records| - 1 {
      ScreenedEach(s, owner, records[..|records| - 1], i);
    }
  }

  lemma {:induction false} AdmittedEach(s: Store, records: seq<Record>, i: nat)
    requires Admit(s, records).Ok? && i < |records|
    ensures AdmitRecord(s, records[i]).Ok?
    decreases |records|
  {
    if i < |records| - 1 {
      AdmittedEach(s, records[..|records| - 1], i);
    }
  }

  /** Preparing a package only fills in missing vectors, each of the provider's dimension. */
  lemma {:induction false} PreparedEach(s: Store, env: Env, owner: string, records: seq<Record>, i: nat)
    requires Prepare(s, env, owner, records).Ok? && i < |records|
    ensures
      var p := Prepare(s, env, owner, records).value;
      && |p| == |records|
      && PrepareRecord(s, env, owner, records[i]) == Ok(p[i])
    decreases |records|
  {
    var rest := records[..|records| - 1];
    if |rest| > 0 {
      PreparedEach(s, env, owner, rest, if i < |rest| then i else 0);
    }
  }

  lemma PreparedRecord(s: Store, env: Env, owner: string, r: Record)
    requires PrepareRecord(s, env, owner, r).Ok? && ValidRecord(owner, r)
    ensures
      var p := PrepareRecord(s, env, owner, r).value;
      && p == r.(embedding := p.embedding) && ValidRecord(owner, p)
      && (Get(s, owner, r.memory.id, None).None? ==> p.embedding.Some?)
      && (r.embedding.Some? ==> p == r)
  {
  }

  lemma PreparedPackage(s: Store, env: Env, owner: string, records: seq<Record>)
    requires Prepare(s, env, owner, records).Ok?
    requires forall i :: 0 <= i < |records| ==> ValidRecord(owner, records[i])
    ensures
      var p := Prepare(s, env, owner, records).value;
      && |p| == |records|
      && (forall i :: 0 <= i < |p| ==> p[i] == records[i].(embedding := p[i].embedding) && ValidRecord(owner, p[i]))
      && (forall id :: InPackage(p, id) <==> InPackage(records, id))
  {
    var p := Prepare(s, env, owner, records).value;
    if |records| > 0 {
      PreparedEach(s, env, owner, records, 0);
    }
    forall i | 0 <= i < |p| ensures p[i] == records[i].(embedding := p[i].embedding) && ValidRecord(owner, p[i]) {
      PreparedEach(s, env, owner, records, i);
      PreparedRecord(s, env, owner, records[i]);
    }
    hide *;
    forall id ensures InPackage(p, id) <==> InPackage(records, id) {
      PackageIds(p, records, id);
    }
  }

  lemma PackageIds(p: seq<Record>, records: seq<Record>, id: Id)
    requires |p| == |records| && forall i :: 0 <= i < |p| ==> p[i].memory == records[i].memory
    ensures InPackage(p, id) <==> InPackage(records, id)
  {
    if i :| 0 <= i < |p| && p[i].memory.id == id {
      assert records[i].memory.id == id;
    }
    if i :| 0 <= i < |records| && records[i].memory.id == id {
      assert p[i].memory.id == id;
    }
  }

  lemma ImportFacts(s: Store, env: Env, owner: string, records: seq<Record>)
    requires DecideImport(s, env, owner, records).Ok?
    ensures DistinctIds(records) && (forall i :: 0 <= i < |records| ==> ValidRecord(owner, records[i]))
    ensures EndpointsExist(s, owner, records) && Prepare(s, env, owner, records).Ok?
    ensures
      var p := Prepare(s, env, owner, records).value;
      Admit(s, p).Ok? && DecideImport(s, env, owner, records).value.effect == Load(p)
  {
    hide ValidOwner, DistinctIds, ValidRecord, EndpointsExist, Screen, Prepare, Admit, CountNew;
  }

  lemma EndpointsReached(s: Store, owner: string, records: seq<Record>, p: seq<Record>, i: nat)
    requires EndpointsExist(s, owner, records) && i < |records| == |p| && p[i].relations == records[i].relations
    requires forall id :: InPackage(p, id) <==> InPackage(records, id)
    ensures forall j :: 0 <= j < |p[i].relations| ==>
              Reaches(s, owner, p, p[i].relations[j].source) && Reaches(s, owner, p, p[i].relations[j].target)
  {
    hide InPackage, LiveFor;
  }

  lemma ImportEnabled(s: Store, env: Env, owner: string, records: seq<Record>)
    requires WellFormed(Import(owner, records)) && DecideImport(s, env, owner, records).Ok?
    ensures Enabled(s, DecideImport(s, env, owner, records).value.effect)
  {
    ImportFacts(s, env, owner, records);
    hide DecideImport, Prepare, Admit, ValidRecord, InPackage, EndpointsExist, Reaches;
    var p := Prepare(s, env, owner, records).value;
    PreparedPackage(s, env, owner, records);
    forall i | 0 <= i < |p| ensures Loadable(s, owner, p, p[i]) {
      AdmittedEach(s, p, i);
      EndpointsReached(s, owner, records, p, i);
    }
    assert LoadableFor(s, owner, p);
  }

  lemma DiscardEnabled(s: Store, c: DiscardCommand)
    requires DecideDiscard(s, c).Ok?
    ensures Enabled(s, DecideDiscard(s, c).value.effect)
  {
  }

  lemma ForgetEnabled(s: Store, c: ForgetCommand)
    requires DecideForget(s, c).Ok?
    ensures Enabled(s, DecideForget(s, c).value.effect)
  {
  }

  lemma RelateEnabled(s: Store, env: Env, c: RelateCommand)
    requires DecideRelate(s, env, c).Ok?
    ensures Enabled(s, DecideRelate(s, env, c).value.effect)
  {
  }

  lemma OnlyImportsLoad(s: Store, env: Env, c: Command)
    requires Decide(s, env, c).Ok? && !c.Import?
    ensures !Decide(s, env, c).value.effect.Load?
  {
    hide Evolve, Construct, Embed, GetVersion, MutationAllowed, Bound, CaptureAllowed, RelatedExists;
  }

  lemma DecisionEnabled(s: Store, step: Step)
    requires Inv(s) && LegalStep(s, step) && Decide(s, step.env, step.command).Ok?
    ensures Enabled(s, Decide(s, step.env, step.command).value.effect)
  {
    hide DecideWrite, DecideCapture, DecideConfirm, DecidePin, DecideDiscard, DecideUpdate, DecideForget,
      DecideRelate, DecideImport, Enabled, ValidMemory, Aligned, KeysHeld, RelationsSound;
    match step.command
    case Write(c) => WriteEnabled(s, step.env, c);
    case Capture(c) => CaptureEnabled(s, step.env, c);
    case Confirm(c) => ConfirmEnabled(s, step.env, c);
    case Pin(c) => PinEnabled(s, step.env, c);
    case Update(c) => UpdateEnabled(s, step.env, c);
    case Import(owner, records) => ImportEnabled(s, step.env, owner, records);
    case Discard(c) => DiscardEnabled(s, c);
    case Forget(c) => ForgetEnabled(s, c);
    case Relate(c) => RelateEnabled(s, step.env, c);
  }

  // ---------------------------------------------------------------- loading a package

  lemma {:induction false} LoadedFrame(s: Store, records: seq<Record>)
    ensures
      var t := LoadRecords(s, records);
      && t.relations == s.relations && t.operations == s.operations && t.tombstones == s.tombstones
      && (forall id :: id in t.memories <==> id in s.memories || InPackage(records, id))
      && (forall id :: id in s.memories ==> t.memories[id] == s.memories[id])
    decreases |records|
  {
    if records != [] {
      LoadedFrame(s, records[..|records| - 1]);
      forall id ensures InPackage(records, id) <==>
          InPackage(records[..|records| - 1], id) || id == records[|records| - 1].memory.id {
        PackageLast(records, id);
      }
    }
  }

  lemma PackageLast(records: seq<Record>, id: Id)
    requires records != []
    ensures InPackage(records, id) <==>
        InPackage(records[..|records| - 1], id) || id == records[|records| - 1].memory.id
  {
    var rest := records[..|records| - 1];
    if i :| 0 <= i < |rest| && rest[i].memory.id == id {
      assert records[i].memory.id == id;
    }
    if i :| 0 <= i < |records| - 1 && records[i].memory.id == id {
      assert rest[i].memory.id == id;
    }
  }

  /** Existing memories keep their vector and history. */
  lemma {:induction false} LoadedOld(s: Store, records: seq<Record>)
    requires s.memories.Keys == s.vectors.Keys == s.history.Keys
    ensures
      var t := LoadRecords(s, records);
      && t.memories.Keys == t.vectors.Keys == t.history.Keys
      && (forall id :: id in s.memories ==>
           id in t.memories && t.vectors[id] == s.vectors[id] && t.history[id] == s.history[id])
    decreases |records|
  {
    if records != [] {
      LoadedOld(s, records[..|records| - 1]);
    }
  }

  ghost predicate Placed(t: Store, r: Record) {
    var id := r.memory.id;
    && id in t.memories && id in t.vectors && id in t.history
    && t.memories[id] == r.memory && t.vectors[id] == OrElse(r.embedding, []) && t.history[id] == r.history
  }

  /** A new id gets exactly its record. */
  lemma {:induction false} LoadedNew(s: Store, records: seq<Record>, i: nat)
    requires DistinctIds(records) && i < |records| && records[i].memory.id !in s.memories
    ensures Placed(LoadRecords(s, records), records[i])
    decreases |records|
  {
    var rest := records[..|records| - 1];
    if i < |rest| {
      assert rest[i] == records[i];
      LoadedNew(s, rest, i);
    } else {
      LoadedFrame(s, rest);
      assert !InPackage(rest, records[i].memory.id);
    }
  }

  lemma LoadedContent(s: Store, records: seq<Record>)
    requires DistinctIds(records) && s.memories.Keys == s.vectors.Keys == s.history.Keys
    ensures
      var t := LoadRecords(s, records);
      && t.memories.Keys == t.vectors.Keys == t.history.Keys
      && (forall id :: id in s.memories ==>
           id in t.memories && t.vectors[id] == s.vectors[id] && t.history[id] == s.history[id])
      && (forall i :: 0 <= i < |records| && records[i].memory.id !in s.memories ==> Placed(t, records[i]))
  {
    LoadedOld(s, records);
    forall i | 0 <= i < |records| && records[i].memory.id !in s.memories
      ensures Placed(LoadRecords(s, records), records[i])
    {
      LoadedNew(s, records, i);
    }
  }

  lemma {:induction false} LoadedKeys(s: Store, records: seq<Record>, w: WriteKey)
    requires w in LoadRecords(s, records).fingerprints
    ensures
      var f := LoadRecords(s, records).fingerprints[w];
      || (w in s.fingerprints && f == s.fingerprints[w])
      || (exists i :: 0 <= i < |records| && Holds(records[i].memory, w) && records[i].memory.id !in s.memories
                      && f == OrElse(records[i].fingerprint, Hex("")))
    decreases |records|
  {
    if records != [] {
      var rest := records[..|records| - 1];
      var last := records[|records| - 1];
      var mid := LoadRecords(s, rest);
      LoadedFrame(s, rest);
      if last.memory.id !in mid.memories && Holds(last.memory, w) {
        assert records[|records| - 1] == last;
      } else {
        LoadedKeys(s, rest, w);
        if !(w in s.fingerprints && mid.fingerprints[w] == s.fingerprints[w]) {
          var i :| 0 <= i < |rest| && Holds(rest[i].memory, w) && rest[i].memory.id !in s.memories
            && mid.fingerprints[w] == OrElse(rest[i].fingerprint, Hex(""));
          assert records[i] == rest[i];
        }
      }
    }
  }

  lemma {:induction false} RelationsLoaded(relations: map<RelationKey, Relation>, rs: seq<Relation>)
    ensures
      var t := LoadRelations(relations, rs);
      && (forall k :: k in relations ==> k in t && t[k] == relations[k])
      && (forall k :: k in t && k !in relations ==> t[k] in rs && KeyOfRelation(t[k]) == k)
      && (forall i :: 0 <= i < |rs| ==> KeyOfRelation(rs[i]) in t)
    decreases |rs|
  {
    if rs != [] {
      RelationsLoaded(relations, rs[..|rs| - 1]);
      assert rs == rs[..|rs| - 1] + [rs[|rs| - 1]];
    }
  }

  lemma {:induction false} PackageRelationOrigin(records: seq<Record>, r: Relation)
    ensures r in PackageRelations(records) <==> exists i :: 0 <= i < |records| && r in records[i].relations
    decreases |records|
  {
    if records != [] {
      var rest := records[..|records| - 1];
      PackageRelationOrigin(rest, r);
      assert records == rest + [records[|records| - 1]];
      if i :| 0 <= i < |rest| && r in rest[i].relations {
        assert records[i] == rest[i];
      }
    }
  }

  // ---------------------------------------------------------------- committing keeps the invariant

  lemma LoadAligned(s: Store, owner: string, records: seq<Record>)
    requires Aligned(s) && DistinctIds(records) && LoadableFor(s, owner, records)
    ensures Aligned(Commit(s, Load(records)))
  {
    hide Reaches, CompleteHistory;
    LoadedFrame(s, records);
    LoadedContent(s, records);
    var t := Commit(s, Load(records));
    forall id | id in t.memories ensures t.memories[id].id == id && CompleteHistory(t.memories[id], t.history[id]) {
      if id !in s.memories {
        var i :| 0 <= i < |records| && records[i].memory.id == id;
        assert Loadable(s, owner, records, records[i]);
      }
    }
  }

  lemma CommitAligned(s: Store, e: Effect)
    requires Inv(s) && Enabled(s, e)
    ensures Aligned(Commit(s, e))
  {
    hide RelationsSound, KeysHeld, DeletionTerminal, LedgerSettled, LoadableFor, LinkOpen, Evidenced, Register,
      Unregister, Detach, Post, Attach, LoadRecords;
    if e.Load? {
      var owner :| LoadableFor(s, owner, e.records);
      LoadAligned(s, owner, e.records);
    }
  }

  /** Storing one memory under the owner it had, and adding at most one open link. */
  lemma OneMemoryKeepsRelations(s: Store, t: Store, m: Memory, link: Option<Relation>)
    requires RelationsSound(s)
    requires t.memories == s.memories[m.id := m] && (m.id in s.memories ==> s.memories[m.id].owner == m.owner)
    requires t.relations == Attach(s.relations, link) && (link.Some? ==> LinkOpen(s, link.value))
    ensures RelationsSound(t)
  {
  }

  lemma EraseKeepsRelations(s: Store, id: Id)
    requires RelationsSound(s) && id in s.memories
    ensures RelationsSound(Bury(s, id))
  {
  }

  lemma CommitRelations(s: Store, e: Effect)
    requires Inv(s) && Enabled(s, e)
    ensures RelationsSound(Commit(s, e))
  {
    hide KeysHeld, LedgerSettled, DeletionTerminal, Aligned, Register, Unregister, Post, Snapshot, Evidenced,
      Detach, LinkOpen, Loadable, RelationsSound;
    match e
    case Load(records) =>
      var owner :| LoadableFor(s, owner, records);
      LoadCommitRelations(s, owner, records);
    case Create(m, f, v) => OneMemoryKeepsRelations(s, Commit(s, e), m, None);
    case Advance(m, reason, v, link, entry) => OneMemoryKeepsRelations(s, Commit(s, e), m, link);
    case Erase(id, entry) =>
      EraseKeepsRelations(s, id);
      SameRelations(Bury(s, id), Commit(s, e));
    case Link(r) => LinkKeepsRelations(s, r);
    case Nothing =>
    case Settle(entry) => SameRelations(s, Commit(s, e));
  }

  lemma SameRelations(s: Store, t: Store)
    requires RelationsSound(s) && t.memories == s.memories && t.relations == s.relations
    ensures RelationsSound(t)
  {
  }

  lemma LinkKeepsRelations(s: Store, r: Relation)
    requires RelationsSound(s) && LinkOpen(s, r)
    ensures RelationsSound(Commit(s, Link(r)))
  {
  }

  lemma LoadCommitRelations(s: Store, owner: string, records: seq<Record>)
    requires Inv(s) && DistinctIds(records)
    requires LoadableFor(s, owner, records)
    ensures RelationsSound(Commit(s, Load(records)))
  {
    hide Aligned, KeysHeld, LedgerSettled, DeletionTerminal, ValidRecord, Reaches;
    var t := Commit(s, Load(records));
    LoadedFrame(s, records);
    RelationsLoaded(s.relations, PackageRelations(records));
    forall k | k in t.relations
      ensures KeyOfRelation(t.relations[k]) == k
      ensures k.source != k.target && LiveFor(t, k.owner, k.source) && LiveFor(t, k.owner, k.target)
    {
      if k !in s.relations {
        LoadedRelationIsSound(s, owner, records, t.relations[k]);
      }
    }
  }

  lemma LoadedRelationIsSound(s: Store, owner: string, records: seq<Record>, r: Relation)
    requires Inv(s) && DistinctIds(records) && LoadableFor(s, owner, records) && r in PackageRelations(records)
    ensures
      var t := LoadRecords(s, records);
      r.source != r.target && LiveFor(t, r.owner, r.source) && LiveFor(t, r.owner, r.target)
  {
    hide Inv, Reaches, LoadRecords, LiveFor;
    PackageRelationOrigin(records, r);
    var i :| 0 <= i < |records| && r in records[i].relations;
    var j :| 0 <= j < |records[i].relations| && records[i].relations[j] == r;
    assert Loadable(s, owner, records, records[i]);
    ReachedIsLive(s, owner, records, r.source);
    ReachedIsLive(s, owner, records, r.target);
  }

  lemma ReachedIsLive(s: Store, owner: string, records: seq<Record>, id: Id)
    requires Inv(s) && DistinctIds(records) && Reaches(s, owner, records, id)
    requires LoadableFor(s, owner, records)
    ensures LiveFor(LoadRecords(s, records), owner, id)
  {
    LoadedFrame(s, records);
    LoadedContent(s, records);
    if InPackage(records, id) {
      var i :| 0 <= i < |records| && records[i].memory.id == id;
      assert Loadable(s, owner, records, records[i]);
    }
  }

  lemma CommitLedger(s: Store, e: Effect)
    requires Inv(s) && Enabled(s, e)
    ensures LedgerSettled(Commit(s, e))
    ensures forall k :: k in s.operations ==>
        k in Commit(s, e).operations && Commit(s, e).operations[k] == s.operations[k]
  {
    if e.Load? {
      LoadedFrame(s, e.records);
    }
  }

  lemma CommitDeletion(s: Store, e: Effect)
    requires Inv(s) && Enabled(s, e)
    ensures DeletionTerminal(Commit(s, e))
    ensures s.tombstones <= Commit(s, e).tombstones
  {
    if e.Load? {
      var owner :| LoadableFor(s, owner, e.records);
      LoadedFrame(s, e.records);
      LoadedContent(s, e.records);
      var t := Commit(s, e);
      forall id | id in t.memories ensures Grave(t.memories[id]) !in t.tombstones {
        if id !in s.memories {
          var i :| 0 <= i < |e.records| && e.records[i].memory.id == id;
          assert Loadable(s, owner, e.records, e.records[i]);
        }
      }
    }
  }

  lemma HeldBy(s: Store, w: WriteKey, id: Id)
    requires id in s.memories && Holds(s.memories[id], w)
    ensures HasHolder(s, w)
  {
  }

  /** A commit that rebinds no key and keeps each holder keeps every key held. */
  lemma KeysSurvive(s: Store, t: Store)
    requires KeysHeld(s)
    requires forall w :: w in t.fingerprints ==> w in s.fingerprints && t.fingerprints[w] == s.fingerprints[w]
    requires forall id, w :: w in t.fingerprints && id in s.memories && Holds(s.memories[id], w) ==>
               id in t.memories && Holds(t.memories[id], w)
    ensures KeysHeld(t)
  {
    forall w | w in t.fingerprints ensures HasHolder(t, w) {
      var id :| id in s.memories && Holds(s.memories[id], w);
      HeldBy(t, w, id);
    }
  }

  lemma CommitKeys(s: Store, e: Effect)
    requires Inv(s) && Enabled(s, e)
    ensures KeysHeld(Commit(s, e))
  {
    hide RelationsSound, LedgerSettled, DeletionTerminal, CompleteHistory, Detach, Post, Snapshot, Evidenced, LinkOpen;
    var t := Commit(s, e);
    match e
    case Load(records) =>
      forall w | w in t.fingerprints ensures HasHolder(t, w) && ValidFingerprint(t.fingerprints[w]) {
        LoadCommitKeys(s, records, w);
      }
    case Create(m, f, v) => CreateKeepsKeys(s, m, f, v);
    case Nothing =>
    case Settle(entry) => KeysSurvive(s, t);
    case Advance(m, reason, v, link, entry) => KeysSurvive(s, t);
    case Erase(dead, entry) => KeysSurvive(s, t);
    case Link(r) => KeysSurvive(s, t);
  }

  lemma CreateKeepsKeys(s: Store, m: Memory, f: Fingerprint, v: Vector)
    requires KeysHeld(s) && Unused(s, m.id) && ValidFingerprint(f)
    ensures KeysHeld(Commit(s, Create(m, f, v)))
  {
    var t := Commit(s, Create(m, f, v));
    forall w | w in t.fingerprints ensures HasHolder(t, w) && ValidFingerprint(t.fingerprints[w]) {
      if Holds(m, w) {
        HeldBy(t, w, m.id);
      } else {
        var id :| id in s.memories && Holds(s.memories[id], w);
        HeldBy(t, w, id);
      }
    }
  }

  lemma LoadCommitKeys(s: Store, records: seq<Record>, w: WriteKey)
    requires Inv(s) && Enabled(s, Load(records)) && w in Commit(s, Load(records)).fingerprints
    ensures HasHolder(Commit(s, Load(records)), w) && ValidFingerprint(Commit(s, Load(records)).fingerprints[w])
  {
    hide RelationsSound, DeletionTerminal, LedgerSettled, CompleteHistory, Reaches, HasHolder, ValidFingerprint,
        Register;
    var t := Commit(s, Load(records));
    var owner :| LoadableFor(s, owner, records);
    LoadedFrame(s, records);
    LoadedContent(s, records);
    LoadedKeys(s, records, w);
    if w in s.fingerprints && t.fingerprints[w] == s.fingerprints[w] {
      HolderOf(s, w);
      var id :| id in s.memories && Holds(s.memories[id], w);
      HeldBy(t, w, id);
    } else {
      var i :| 0 <= i < |records| && Holds(records[i].memory, w) && records[i].memory.id !in s.memories
        && t.fingerprints[w] == OrElse(records[i].fingerprint, Hex(""));
      assert Loadable(s, owner, records, records[i]);
      HeldBy(t, w, records[i].memory.id);
    }
  }

  lemma HolderOf(s: Store, w: WriteKey)
    requires HasHolder(s, w)
    ensures exists id :: id in s.memories && Holds(s.memories[id], w)
  {
    var id :| id in s.memories && s.memories[id].owner == w.owner && s.memories[id].idempotencyKey == Some(w.key);
    assert Holds(s.memories[id], w);
  }

  lemma CommitKeepsInv(s: Store, e: Effect)
    requires Inv(s) && Enabled(s, e)
    ensures Inv(Commit(s, e))
  {
    CommitAligned(s, e);
    CommitRelations(s, e);
    CommitLedger(s, e);
    CommitDeletion(s, e);
    CommitKeys(s, e);
  }

  /** Every transaction, committed or rolled back, keeps the invariant. */
  lemma StepKeepsInv(s: Store, step: Step)
    requires Inv(s) && LegalStep(s, step)
    ensures Inv(Apply(s, step.env, step.command))
  {
    hide Inv, Decide, Commit, Enabled, LegalStep;
    if Decide(s, step.env, step.command).Ok? {
      DecisionEnabled(s, step);
      CommitKeepsInv(s, Decide(s, step.env, step.command).value.effect);
    }
  }

  lemma LegalPrefix(s: Store, steps: seq<Step>)
    requires LegalRun(s, steps) && steps != []
    ensures LegalRun(s, steps[..|steps| - 1])
    ensures LegalStep(Run(s, steps[..|steps| - 1]), steps[|steps| - 1])
  {
    hide LegalStep, Run;
    var rest := steps[..|steps| - 1];
    forall i | 0 <= i < |rest| ensures LegalStep(Run(s, rest[..i]), rest[i]) {
      assert rest[..i] == steps[..i];
    }
  }

  /** The invariant holds in every reachable store. */
  lemma {:induction false} ReachableInv(s: Store, steps: seq<Step>)
    requires Inv(s) && LegalRun(s, steps)
    ensures Inv(Run(s, steps))
    decreases |steps|
  {
    if steps != [] {
      hide Inv, LegalRun, Apply;
      LegalPrefix(s, steps);
      ReachableInv(s, steps[..|steps| - 1]);
      StepKeepsInv(Run(s, steps[..|steps| - 1]), steps[|steps| - 1]);
    }
  }

  lemma EmptyInv()
    ensures Inv(EMPTY)
  {
  }

  // ---------------------------------------------------------------- ledger over runs

  /** Completed rows never change, and tombstones only grow. */
  lemma {:induction false} LedgerMonotone(s: Store, steps: seq<Step>)
    requires Inv(s) && LegalRun(s, steps)
    ensures
      var t := Run(s, steps);
      && (forall k :: k in s.operations ==> k in t.operations && t.operations[k] == s.operations[k])
      && s.tombstones <= t.tombstones
    decreases |steps|
  {
    if steps != [] {
      hide Inv, LegalRun, Decide, Commit, Enabled, LegalStep;
      var rest := steps[..|steps| - 1];
      var last := steps[|steps| - 1];
      LegalPrefix(s, steps);
      LedgerMonotone(s, rest);
      ReachableInv(s, rest);
      var mid := Run(s, rest);
      if Decide(mid, last.env, last.command).Ok? {
        DecisionEnabled(mid, last);
        CommitLedger(mid, Decide(mid, last.env, last.command).value.effect);
        CommitDeletion(mid, Decide(mid, last.env, last.command).value.effect);
      }
    }
  }

  /** The ledger row a command claims, if it is keyed. */
  function OperationOf(c: Command): Option<OperationKey> {
    match c
    case Confirm(w) => Some(OperationKey(w.owner, ConfirmOp, w.key))
    case Pin(w) => Some(OperationKey(w.owner, PinOp, w.key))
    case Discard(w) => Some(OperationKey(w.owner, DiscardOp, w.key))
    case Update(w) => LedgerKey(w.owner, UpdateOp, w.key)
    case Forget(w) => LedgerKey(w.owner, ForgetOp, w.key)
    case _ => None
  }

  /** The row an effect adds to the ledger. */
  function Posted(e: Effect): Option<Entry> {
    match e
    case Settle(entry) => Some(entry)
    case Advance(_, _, _, _, entry) => entry
    case Erase(_, entry) => entry
    case _ => None
  }

  /** The claim is either completed by this effect or was completed before. */
  ghost predicate Settles(s: Store, d: Result<Outcome>, key: OperationKey) {
    d.Ok? ==>
      || key in s.operations
      || (Posted(d.value.effect).Some? && Posted(d.value.effect).value.key == key)
  }

  lemma ConfirmSettles(s: Store, env: Env, c: ConfirmCommand)
    ensures Settles(s, DecideConfirm(s, env, c), OperationKey(c.owner, ConfirmOp, c.key))
  {
    hide Evolve, Embed, GetVersion;
  }

  lemma PinSettles(s: Store, env: Env, c: PinCommand)
    ensures Settles(s, DecidePin(s, env, c), OperationKey(c.owner, PinOp, c.key))
  {
    hide Evolve, Embed, GetVersion;
  }

  lemma DiscardSettles(s: Store, c: DiscardCommand)
    ensures Settles(s, DecideDiscard(s, c), OperationKey(c.owner, DiscardOp, c.key))
  {
  }

  lemma UpdateSettles(s: Store, env: Env, c: UpdateCommand)
    requires LedgerKey(c.owner, UpdateOp, c.key).Some?
    ensures Settles(s, DecideUpdate(s, env, c), LedgerKey(c.owner, UpdateOp, c.key).value)
  {
    hide Evolve, Embed, GetVersion, RelatedExists;
  }

  lemma ForgetSettles(s: Store, c: ForgetCommand)
    requires LedgerKey(c.owner, ForgetOp, c.key).Some?
    ensures Settles(s, DecideForget(s, c), LedgerKey(c.owner, ForgetOp, c.key).value)
  {
  }

  /** A normal return of a keyed command has completed its claim. */
  lemma ReturnSettles(s: Store, step: Step)
    requires Inv(s) && LegalStep(s, step) && OperationOf(step.command).Some?
    requires Decide(s, step.env, step.command).Ok?
    ensures
      var t := Apply(s, step.env, step.command);
      var k := OperationOf(step.command).value;
      k in t.operations && t.operations[k].status == Completed
  {
    hide DecideConfirm, DecidePin, DecideDiscard, DecideUpdate, DecideForget, Inv, Enabled, LegalStep, LedgerKey,
        Commit;
    var env := step.env;
    match step.command {
      case Confirm(c) => ConfirmSettles(s, env, c);
      case Pin(c) => PinSettles(s, env, c);
      case Discard(c) => DiscardSettles(s, c);
      case Update(c) => UpdateSettles(s, env, c);
      case Forget(c) => ForgetSettles(s, c);
      case _ =>
    }
    DecisionEnabled(s, step);
    PostedIsStored(s, Decide(s, env, step.command).value.effect);
  }

  lemma PostedIsStored(s: Store, e: Effect)
    requires Inv(s) && Enabled(s, e)
    ensures forall k :: k in s.operations || (Posted(e).Some? && Posted(e).value.key == k) ==>
              k in Commit(s, e).operations && Commit(s, e).operations[k].status == Completed
  {
    CommitLedger(s, e);
  }

  lemma ChangeMeansReturn(s: Store, env: Env, c: Command)
    requires Apply(s, env, c) != s
    ensures Decide(s, env, c).Ok?
  {
  }

  /** A claimed key never mutates the store again, whatever the command carries. */
  lemma ClaimedKeyIsInert(s: Store, env: Env, c: Command)
    requires OperationOf(c).Some? && OperationOf(c).value in s.operations
    ensures Apply(s, env, c) == s
  {
  }

  lemma {:induction false} RunSplit(s: Store, a: seq<Step>, b: seq<Step>)
    ensures Run(s, a + b) == Run(Run(s, a), b)
    decreases |b|
  {
    if b == [] {
      assert a + b == a;
    } else {
      assert (a + b)[..|a + b| - 1] == a + b[..|b| - 1];
      RunSplit(s, a, b[..|b| - 1]);
    }
  }

  lemma LegalSuffix(s: Store, steps: seq<Step>, n: nat)
    requires LegalRun(s, steps) && n <= |steps|
    ensures LegalRun(s, steps[..n]) && LegalRun(Run(s, steps[..n]), steps[n..])
    ensures Run(s, steps) == Run(Run(s, steps[..n]), steps[n..])
  {
    hide LegalStep, Apply, Run;
    assert steps == steps[..n] + steps[n..];
    RunSplit(s, steps[..n], steps[n..]);
    forall i | 0 <= i < n ensures LegalStep(Run(s, steps[..n][..i]), steps[..n][i]) {
      assert steps[..n][..i] == steps[..i];
    }
    forall i | 0 <= i < |steps| - n ensures LegalStep(Run(Run(s, steps[..n]), steps[n..][..i]), steps[n..][i]) {
      assert steps[..n + i] == steps[..n] + steps[n..][..i];
      RunSplit(s, steps[..n], steps[n..][..i]);
    }
  }

  lemma {:induction false} ClaimedLater(s: Store, steps: seq<Step>, i: nat, j: nat, key: OperationKey)
    requires Inv(s) && LegalRun(s, steps) && i <= j <= |steps| && key in Run(s, steps[..i]).operations
    ensures key in Run(s, steps[..j]).operations
  {
    hide Inv, LegalRun, Run;
    LegalSuffix(s, steps, j);
    LegalSuffix(s, steps[..j], i);
    assert steps[..j][..i] == steps[..i];
    ReachableInv(s, steps[..i]);
    LedgerMonotone(Run(s, steps[..i]), steps[..j][i..]);
  }

  lemma RunStep(s: Store, steps: seq<Step>, i: nat)
    requires i < |steps|
    ensures Run(s, steps[..i + 1]) == Apply(Run(s, steps[..i]), steps[i].env, steps[i].command)
  {
    hide Apply;
    assert steps[..i + 1][..i] == steps[..i];
  }

  /** Each (owner, operation, key) changes the store at most once over a whole run. */
  lemma KeyMutatesOnce(s: Store, steps: seq<Step>, i: nat, j: nat)
    requires Inv(s) && LegalRun(s, steps) && i < j < |steps|
    requires OperationOf(steps[i].command).Some? && OperationOf(steps[i].command) == OperationOf(steps[j].command)
    requires Run(s, steps[..i + 1]) != Run(s, steps[..i])
    ensures Run(s, steps[..j + 1]) == Run(s, steps[..j])
  {
    hide Decide, Apply, Inv, OperationOf, LegalStep, Run;
    var key := OperationOf(steps[i].command).value;
    RunStep(s, steps, i);
    RunStep(s, steps, j);
    assert key in Run(s, steps[..i + 1]).operations by {
      LegalSuffix(s, steps, i);
      ReachableInv(s, steps[..i]);
      ChangeMeansReturn(Run(s, steps[..i]), steps[i].env, steps[i].command);
      ReturnSettles(Run(s, steps[..i]), steps[i]);
    }
    ClaimedLater(s, steps, i + 1, j, key);
    ClaimedKeyIsInert(Run(s, steps[..j]), steps[j].env, steps[j].command);
  }
}
