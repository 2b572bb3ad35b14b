/** The tables of the tenant worker of src/omp/cloud/worker.py: signed jobs, the two halves of an
    attempt, and a signed snapshot to restart from. HMAC is idealised: a signature is a value that
    remembers its key and what it signs. */
module Worker {
  import opened Domain

  datatype JobState = Pending | Ready | StaleJob | FailedJob | DeadLetter

  datatype WorkerError = Forbidden | UnknownJob

  datatype Reply<+T> = Accepted(value: T) | Rejected(error: WorkerError) {
    predicate IsFailure() { Rejected? }
    function PropagateFailure<U>(): Reply<U> requires Rejected? { Rejected(error) }
    function Extract(): T requires Accepted? { value }
  }

  type JobId = nat

  /** A job's identity as it is signed. */
  datatype Claims = Claims(jobId: JobId, tenant: nat, principal: nat, expiresAt: Time, nonce: string)

  datatype Mac =
    | EnvelopeMac(secret: nat, claims: Claims)
    | ItemMac(secret: nat, fields: ItemFields)
    | BogusMac(text: string)

  datatype WorkerEnvelope = WorkerEnvelope(claims: Claims, signature: Mac)

  /** What does not depend on the clock. */
  predicate Authentic(e: WorkerEnvelope, secret: nat) {
    0 < |e.claims.nonce| <= 256 && e.signature == EnvelopeMac(secret, e.claims)
  }

  predicate Verified(e: WorkerEnvelope, secret: nat, now: Time) {
    Authentic(e, secret) && e.claims.expiresAt > now
  }

  predicate SafeChar(c: char) {
    'A' <= c <= 'Z' || 'a' <= c <= 'z' || '0' <= c <= '9' || c in "_.:/-"
  }

  predicate SafeRef(text: string) {
    0 < |text| <= 256 && forall i :: 0 <= i < |text| ==> SafeChar(text[i])
  }

  datatype Job =
    Job(envelope: WorkerEnvelope, dedupeKey: string, payloadRef: string, state: JobState, attempts: int, failed: bool)

  datatype IndexKey = IndexKey(tenant: nat, text: string)

  /** The secret and the retry budget. */
  datatype Config = Config(secret: nat, maxAttempts: int)

  datatype WorkerState = WorkerState(
    jobs: map<JobId, Job>, dedupe: map<IndexKey, JobId>, nonces: map<IndexKey, JobId>)

  const IDLE := WorkerState(map[], map[], map[])

  function DedupeKey(j: Job): IndexKey {
    IndexKey(j.envelope.claims.tenant, j.dedupeKey)
  }

  function NonceKey(j: Job): IndexKey {
    IndexKey(j.envelope.claims.tenant, j.envelope.claims.nonce)
  }

  function Insert(s: WorkerState, j: Job): WorkerState {
    var id := j.envelope.claims.jobId;
    WorkerState(s.jobs[id := j], s.dedupe[DedupeKey(j) := id], s.nonces[NonceKey(j) := id])
  }

  // ---------------------------------------------------------------- enqueue

  function NewJob(e: WorkerEnvelope, dedupeKey: string, payloadRef: string): Job {
    Job(e, dedupeKey, payloadRef, Pending, 0, false)
  }

  predicate Acceptable(cfg: Config, now: Time, j: Job) {
    Verified(j.envelope, cfg.secret, now) && SafeRef(j.dedupeKey) && SafeRef(j.payloadRef)
  }

  /** The job is acceptable and neither index answers for it. */
  predicate Inserts(cfg: Config, s: WorkerState, now: Time, j: Job) {
    Acceptable(cfg, now, j) && DedupeKey(j) !in s.dedupe && NonceKey(j) !in s.nonces
  }

  function EnqueueOp(cfg: Config, s: WorkerState, now: Time, e: WorkerEnvelope, dedupeKey: string,
                     payloadRef: string): (WorkerState, Reply<Job>) {
    var j := NewJob(e, dedupeKey, payloadRef);
    if !Acceptable(cfg, now, j) then (s, Rejected(Forbidden))
    else if DedupeKey(j) in s.dedupe then
      (s, if s.dedupe[DedupeKey(j)] in s.jobs then Accepted(s.jobs[s.dedupe[DedupeKey(j)]]) else Rejected(UnknownJob))
    else if NonceKey(j) in s.nonces then (s, Rejected(Forbidden))
    else (Insert(s, j), Accepted(j))
  }

  // ---------------------------------------------------------------- one attempt

  datatype HandlerResult = Returns(state: JobState) | Raises

  predicate Terminal(state: JobState) {
    state in {Ready, StaleJob, DeadLetter}
  }

  /** The handler is called only for a live job whose envelope still verifies. */
  predicate HandlerRuns(cfg: Config, s: WorkerState, now: Time, id: JobId) {
    id in s.jobs && !Terminal(s.jobs[id].state) && Verified(s.jobs[id].envelope, cfg.secret, now)
  }

  function Setback(cfg: Config, j: Job): Job {
    j.(state := if j.attempts >= cfg.maxAttempts then DeadLetter else FailedJob, failed := true)
  }

  /** What `run_one` does before it awaits the handler. Without a verified envelope that is all. */
  function Begun(cfg: Config, now: Time, j: Job): Job {
    if Terminal(j.state) then j
    else if !Verified(j.envelope, cfg.secret, now) then Setback(cfg, j)
    else j.(attempts := j.attempts + 1)
  }

  /** What it does once the handler has answered, to the job as it is by then. */
  function Concluded(cfg: Config, j: Job, h: HandlerResult): Job {
    if h.Returns? && h.state in {Ready, StaleJob} then j.(state := h.state, failed := false) else Setback(cfg, j)
  }

  // ---------------------------------------------------------------- snapshot and restore

  /** The fields an item's signature covers. `None` is text that names no state or number. */
  datatype ItemFields = ItemFields(
    claims: Claims, signature: Mac, dedupeKey: string, payloadRef: string, state: Option<JobState>,
    attempts: Option<int>)

  datatype Item = Item(fields: ItemFields, snapshotSignature: Mac) | BrokenItem

  function ItemOf(cfg: Config, j: Job): Item {
    var fields := ItemFields(j.envelope.claims, j.envelope.signature, j.dedupeKey, j.payloadRef, Some(j.state),
        Some(j.attempts));
    Item(fields, ItemMac(cfg.secret, fields))
  }

  function JobOf(f: ItemFields): Job
    requires f.state.Some? && f.attempts.Some?
  {
    Job(WorkerEnvelope(f.claims, f.signature), f.dedupeKey, f.payloadRef, f.state.value, f.attempts.value,
        f.state.value == FailedJob)
  }

  predicate Readable(cfg: Config, now: Time, i: Item) {
    && i.Item? && i.snapshotSignature == ItemMac(cfg.secret, i.fields)
    && i.fields.state.Some? && i.fields.attempts.Some? && Acceptable(cfg, now, JobOf(i.fields))
  }

  predicate Resumable(j: Job) {
    j.attempts >= 0 && j.state in {Pending, FailedJob}
  }

  predicate Taken(s: WorkerState, j: Job) {
    j.envelope.claims.jobId in s.jobs || DedupeKey(j) in s.dedupe || NonceKey(j) in s.nonces
  }

  /** One more item: `None` once anything was rejected. */
  function Absorb(cfg: Config, now: Time, before: Option<WorkerState>, i: Item): Option<WorkerState> {
    if before.None? || !Readable(cfg, now, i) then None
    else if !Resumable(JobOf(i.fields)) then before
    else if Taken(before.value, JobOf(i.fields)) then None
    else Some(Insert(before.value, JobOf(i.fields)))
  }

  /** The state rebuilt from a snapshot, or `None` when the snapshot is rejected. */
  function Rebuilt(cfg: Config, now: Time, items: seq<Item>): Option<WorkerState>
    decreases |items|
  {
    if items == [] then Some(IDLE)
    else Absorb(cfg, now, Rebuilt(cfg, now, items[..|items| - 1]), items[|items| - 1])
  }

  function RestoreOp(cfg: Config, s: WorkerState, now: Time, items: seq<Item>): (WorkerState, Reply<nat>) {
    var t := Rebuilt(cfg, now, items);
    if t.None? then (s, Rejected(Forbidden)) else (t.value, Accepted(|t.value.jobs|))
  }

  // ---------------------------------------------------------------- the invariant

  /** What was checked when the job came in, and what every change of state keeps. */
  ghost predicate JobSound(cfg: Config, j: Job) {
    && Authentic(j.envelope, cfg.secret) && SafeRef(j.dedupeKey) && SafeRef(j.payloadRef)
    && j.attempts >= 0 && (j.failed <==> j.state in {FailedJob, DeadLetter})
  }

  ghost predicate JobsSound(cfg: Config, s: WorkerState) {
    forall id :: id in s.jobs ==> s.jobs[id].envelope.claims.jobId == id && JobSound(cfg, s.jobs[id])
  }

  /** Both indices agree one to one with the job table. */
  ghost predicate Indexed(s: WorkerState) {
    && (forall id :: id in s.jobs ==>
          && DedupeKey(s.jobs[id]) in s.dedupe && s.dedupe[DedupeKey(s.jobs[id])] == id
          && NonceKey(s.jobs[id]) in s.nonces && s.nonces[NonceKey(s.jobs[id])] == id)
    && (forall k :: k in s.dedupe ==> s.dedupe[k] in s.jobs && DedupeKey(s.jobs[s.dedupe[k]]) == k)
    && (forall k :: k in s.nonces ==> s.nonces[k] in s.jobs && NonceKey(s.jobs[s.nonces[k]]) == k)
  }

  ghost predicate WorkerInv(cfg: Config, s: WorkerState) {
    cfg.maxAttempts >= 1 && JobsSound(cfg, s) && Indexed(s)
  }

  lemma InsertKeepsInv(cfg: Config, s: WorkerState, j: Job)
    requires WorkerInv(cfg, s) && JobSound(cfg, j) && !Taken(s, j)
    ensures WorkerInv(cfg, Insert(s, j))
  {
  }

  /** Enqueueing keeps the invariant when the job, if it is inserted, has a new id. A job that one of
      the indices answers for may be enqueued again. */
  lemma EnqueueKeepsInv(cfg: Config, s: WorkerState, now: Time, e: WorkerEnvelope, dedupeKey: string,
                        payloadRef: string)
    requires WorkerInv(cfg, s)
    requires Inserts(cfg, s, now, NewJob(e, dedupeKey, payloadRef)) ==> e.claims.jobId !in s.jobs
    ensures WorkerInv(cfg, EnqueueOp(cfg, s, now, e, dedupeKey, payloadRef).0)
  {
    var j := NewJob(e, dedupeKey, payloadRef);
    if Inserts(cfg, s, now, j) {
      InsertKeepsInv(cfg, s, j);
    }
  }

  /** Nothing checks that the id is new. When an envelope is taken in, the indices keep agreeing
      with the table exactly when it is. */
  lemma ReusedIdBreaksIndices(cfg: Config, s: WorkerState, now: Time, e: WorkerEnvelope, dedupeKey: string,
                              payloadRef: string)
    requires WorkerInv(cfg, s) && Inserts(cfg, s, now, NewJob(e, dedupeKey, payloadRef))
    ensures Indexed(EnqueueOp(cfg, s, now, e, dedupeKey, payloadRef).0) <==> e.claims.jobId !in s.jobs
  {
    var t := EnqueueOp(cfg, s, now, e, dedupeKey, payloadRef).0;
    if e.claims.jobId in s.jobs {
      var k := DedupeKey(s.jobs[e.claims.jobId]);
      assert t.dedupe[k] == e.claims.jobId && DedupeKey(t.jobs[e.claims.jobId]) != k;
    } else {
      EnqueueKeepsInv(cfg, s, now, e, dedupeKey, payloadRef);
    }
  }

  lemma ChangeKeepsInv(cfg: Config, s: WorkerState, id: JobId, j: Job)
    requires WorkerInv(cfg, s) && id in s.jobs && JobSound(cfg, j)
    requires
      var was := s.jobs[id];
      j.envelope == was.envelope && j.dedupeKey == was.dedupeKey
    ensures WorkerInv(cfg, s.(jobs := s.jobs[id := j]))
  {
  }

  // ---------------------------------------------------------------- restart

  /** `items` lists every job of `s` exactly once, in some order. */
  ghost predicate IsSnapshot(cfg: Config, s: WorkerState, order: seq<JobId>, items: seq<Item>) {
    && |items| == |order|
    && (forall i, j :: 0 <= i < j < |order| ==> order[i] != order[j])
    && (forall id :: id in s.jobs <==> id in order)
    && (forall i :: 0 <= i < |order| ==> order[i] in s.jobs && items[i] == ItemOf(cfg, s.jobs[order[i]]))
  }

  /** The pending and failed jobs among `kept`. */
  ghost function Live(s: WorkerState, kept: set<JobId>): set<JobId> {
    set id | id in s.jobs && id in kept && Resumable(s.jobs[id])
  }

  ghost function PointingAt(index: map<IndexKey, JobId>, ids: set<JobId>): map<IndexKey, JobId> {
    map k | k in index && index[k] in ids :: index[k]
  }

  /** The state cut down to some jobs, with the index entries that point at them. */
  ghost function Only(s: WorkerState, ids: set<JobId>): WorkerState {
    WorkerState(map id | id in s.jobs && id in ids :: s.jobs[id], PointingAt(s.dedupe, ids), PointingAt(s.nonces, ids))
  }

  ghost function Projection(s: WorkerState, kept: set<JobId>): WorkerState {
    Only(s, Live(s, kept))
  }

  lemma ItemReadable(cfg: Config, now: Time, j: Job)
    requires JobSound(cfg, j)
    ensures Readable(cfg, now, ItemOf(cfg, j)) <==> j.envelope.claims.expiresAt > now
    ensures Resumable(j) ==> JobOf(ItemOf(cfg, j).fields) == j
    ensures Resumable(JobOf(ItemOf(cfg, j).fields)) <==> Resumable(j)
  {
  }

  ghost predicate Prefix(cfg: Config, s: WorkerState, order: seq<JobId>, items: seq<Item>) {
    && |items| == |order|
    && (forall i, j :: 0 <= i < j < |order| ==> order[i] != order[j])
    && (forall i :: 0 <= i < |order| ==> order[i] in s.jobs && items[i] == ItemOf(cfg, s.jobs[order[i]]))
  }

  ghost function Listed(order: seq<JobId>): set<JobId> {
    set id | id in order
  }

  lemma PointingAtOneMore(index: map<IndexKey, JobId>, ids: set<JobId>, id: JobId, key: IndexKey)
    requires key in index && index[key] == id && id !in ids
    requires forall k :: k in index && index[k] == id ==> k == key
    ensures key !in PointingAt(index, ids) && PointingAt(index, ids)[key := id] == PointingAt(index, ids + {id})
  {
  }

  lemma ProjectionGrows(cfg: Config, s: WorkerState, kept: set<JobId>, id: JobId)
    requires WorkerInv(cfg, s) && id in s.jobs && id !in kept
    ensures Resumable(s.jobs[id]) ==>
              !Taken(Projection(s, kept), s.jobs[id])
                  && Insert(Projection(s, kept), s.jobs[id]) == Projection(s, kept + {id})
    ensures !Resumable(s.jobs[id]) ==> Projection(s, kept) == Projection(s, kept + {id})
  {
    hide JobSound, PointingAt, Resumable;
    var ids := Live(s, kept);
    if Resumable(s.jobs[id]) {
      assert Live(s, kept + {id}) == ids + {id};
      PointingAtOneMore(s.dedupe, ids, id, DedupeKey(s.jobs[id]));
      PointingAtOneMore(s.nonces, ids, id, NonceKey(s.jobs[id]));
      assert Only(s, ids).jobs[id := s.jobs[id]] == Only(s, ids + {id}).jobs;
    } else {
      assert Live(s, kept + {id}) == ids;
    }
  }

  ghost predicate Unexpired(s: WorkerState, now: Time, order: seq<JobId>) {
    forall i :: 0 <= i < |order| ==> order[i] in s.jobs && s.jobs[order[i]].envelope.claims.expiresAt > now
  }

  lemma UnexpiredLast(s: WorkerState, now: Time, order: seq<JobId>)
    requires order != [] && order[|order| - 1] in s.jobs
    ensures Unexpired(s, now, order) <==>
              Unexpired(s, now, order[..|order| - 1]) && s.jobs[order[|order| - 1]].envelope.claims.expiresAt > now
  {
    var n := |order| - 1;
    if Unexpired(s, now, order) {
      assert forall i :: 0 <= i < n ==> order[..n][i] == order[i];
    }
    if Unexpired(s, now, order[..n]) && s.jobs[order[n]].envelope.claims.expiresAt > now {
      forall i | 0 <= i < |order| ensures order[i] in s.jobs && s.jobs[order[i]].envelope.claims.expiresAt > now {
        if i < n {
          assert order[..n][i] == order[i];
        }
      }
    }
  }

  lemma AbsorbOwn(cfg: Config, s: WorkerState, now: Time, kept: set<JobId>, id: JobId)
    requires WorkerInv(cfg, s) && id in s.jobs && id !in kept
    ensures Absorb(cfg, now, Some(Projection(s, kept)), ItemOf(cfg, s.jobs[id])) ==
            if s.jobs[id].envelope.claims.expiresAt > now then Some(Projection(s, kept + {id})) else None
  {
    ItemReadable(cfg, now, s.jobs[id]);
    ProjectionGrows(cfg, s, kept, id);
    hide Readable, Resumable, Projection, Insert, Taken, JobSound, Indexed, JobOf;
  }

  lemma AbsorbNone(cfg: Config, now: Time, i: Item)
    ensures Absorb(cfg, now, None, i) == None
  {
  }

  lemma ProjectionOfNone(s: WorkerState)
    ensures Projection(s, {}) == IDLE
  {
  }

  lemma {:induction false} RebuiltIsProjection(cfg: Config, s: WorkerState, now: Time, order: seq<JobId>,
                                               items: seq<Item>)
    requires WorkerInv(cfg, s) && Prefix(cfg, s, order, items)
    ensures Rebuilt(cfg, now, items) == if Unexpired(s, now, order) then Some(Projection(s, Listed(order))) else None
    decreases |order|
  {
    hide Projection, ItemOf, WorkerInv, Absorb;
    if order == [] {
      assert Listed(order) == {};
      ProjectionOfNone(s);
    } else {
      hide Unexpired;
      var n := |order| - 1;
      RebuiltIsProjection(cfg, s, now, order[..n], items[..n]);
      UnexpiredLast(s, now, order);
      AbsorbOwn(cfg, s, now, Listed(order[..n]), order[n]);
      AbsorbNone(cfg, now, items[n]);
      assert Listed(order) == Listed(order[..n]) + {order[n]};
    }
  }

  /** Restart. A worker accepts its own snapshot if and only if no envelope in it has expired,
      terminal jobs included; then it holds exactly its pending and failed jobs, with both
      indices restricted to them. A rejected snapshot changes nothing. */
  lemma RestartIsProjection(cfg: Config, s: WorkerState, into: WorkerState, now: Time, order: seq<JobId>,
                            items: seq<Item>)
    requires WorkerInv(cfg, s) && IsSnapshot(cfg, s, order, items)
    ensures
      var unexpired := forall id :: id in s.jobs ==> s.jobs[id].envelope.claims.expiresAt > now;
      RestoreOp(cfg, into, now, items) ==
      if unexpired then (Projection(s, s.jobs.Keys), Accepted(|Projection(s, s.jobs.Keys).jobs|))
          else (into, Rejected(Forbidden))
  {
    hide WorkerInv, Projection, ItemOf;
    RebuiltIsProjection(cfg, s, now, order, items);
    assert Listed(order) == s.jobs.Keys;
    assert Unexpired(s, now, order) <==> forall id :: id in s.jobs ==> s.jobs[id].envelope.claims.expiresAt > now;
  }

  /** Whatever snapshot is accepted, its tables are consistent. */
  lemma {:induction false} RebuiltInv(cfg: Config, now: Time, items: seq<Item>)
    requires cfg.maxAttempts >= 1
    ensures Rebuilt(cfg, now, items).Some? ==> WorkerInv(cfg, Rebuilt(cfg, now, items).value)
    decreases |items|
  {
    if items != [] {
      hide WorkerInv, Readable, Resumable, Taken, Insert;
      var n := |items| - 1;
      RebuiltInv(cfg, now, items[..n]);
      var before := Rebuilt(cfg, now, items[..n]);
      if before.Some? && Readable(cfg, now, items[n]) && Resumable(JobOf(items[n].fields)) {
        ReadableParses(cfg, now, items[n]);
        ReadableSound(cfg, now, items[n]);
        if !Taken(before.value, JobOf(items[n].fields)) {
          InsertKeepsInv(cfg, before.value, JobOf(items[n].fields));
        }
      }
    } else {
      assert WorkerInv(cfg, IDLE);
    }
  }

  lemma ReadableSound(cfg: Config, now: Time, i: Item)
    requires Readable(cfg, now, i) && Resumable(JobOf(i.fields))
    ensures JobSound(cfg, JobOf(i.fields))
  {
  }

  lemma ReadableParses(cfg: Config, now: Time, i: Item)
    requires Readable(cfg, now, i)
    ensures i.Item? && i.fields.state.Some? && i.fields.attempts.Some?
  {
  }

  lemma {:induction false} RejectionSticks(cfg: Config, now: Time, items: seq<Item>, n: nat)
    requires n <= |items| && Rebuilt(cfg, now, items[..n]).None?
    ensures Rebuilt(cfg, now, items).None?
    decreases |items|
  {
    if n < |items| {
      hide Readable;
      assert items[..|items| - 1][..n] == items[..n];
      RejectionSticks(cfg, now, items[..|items| - 1], n);
    } else {
      assert items[..n] == items;
    }
  }
}
