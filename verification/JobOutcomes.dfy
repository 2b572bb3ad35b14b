/** What one attempt of the worker, one pass of the re-embedding job and one request to the limiter do,
    said of their tables and histories alone. */
module JobOutcomes {
  import opened Domain
  import Worker
  import WorkerSafety
  import Reembedding
  import RateLimiter

  // ---------------------------------------------------------------- the worker

  /** The envelope is signed with this secret, not expired, and the two references are opaque. */
  ghost predicate Genuine(secret: nat, now: Time, e: Worker.WorkerEnvelope, dedupeKey: string, payloadRef: string) {
    && e.signature == Worker.EnvelopeMac(secret, e.claims) && 1 <= |e.claims.nonce| <= 256 && e.claims.expiresAt > now
    && Opaque(dedupeKey) && Opaque(payloadRef)
  }

  ghost predicate Opaque(text: string) {
    1 <= |text| <= 256 && forall i :: 0 <= i < |text| ==> OpaqueChar(text[i])
  }

  predicate OpaqueChar(c: char) {
    'a' <= c <= 'z' || 'A' <= c <= 'Z' || '0' <= c <= '9' || c == '_' || c == '.' || c == ':' || c == '/' || c == '-'
  }

  lemma GenuineMeans(cfg: Worker.Config, now: Time, e: Worker.WorkerEnvelope, dedupeKey: string, payloadRef: string)
    ensures Worker.Acceptable(cfg, now, Worker.NewJob(e, dedupeKey, payloadRef)) <==>
              Genuine(cfg.secret, now, e, dedupeKey, payloadRef)
  {
    assert forall c: char :: Worker.SafeChar(c) <==> OpaqueChar(c);
  }

  /** A genuine job is answered by the job already queued under its tenant and dedupe key, refused when
      its nonce was used, and otherwise queued: pending, without attempts. Anything else is refused. */
  lemma EnqueueOutcome(cfg: Worker.Config, s: Worker.WorkerState, now: Time, e: Worker.WorkerEnvelope,
                       dedupeKey: string,
                       payloadRef: string)
    ensures
      var (t, r) := Worker.EnqueueOp(cfg, s, now, e, dedupeKey, payloadRef);
      var key, nonceKey := Worker.IndexKey(e.claims.tenant, dedupeKey),
          Worker.IndexKey(e.claims.tenant, e.claims.nonce);
      && (!Genuine(cfg.secret, now, e, dedupeKey, payloadRef) ==> t == s && r == Worker.Rejected(Worker.Forbidden))
      && (Genuine(cfg.secret, now, e, dedupeKey, payloadRef) && key in s.dedupe ==>
            t == s && (s.dedupe[key] in s.jobs ==> r == Worker.Accepted(s.jobs[s.dedupe[key]])))
      && (Genuine(cfg.secret, now, e, dedupeKey, payloadRef) && key !in s.dedupe && nonceKey in s.nonces ==>
            t == s && r == Worker.Rejected(Worker.Forbidden))
      && (Genuine(cfg.secret, now, e, dedupeKey, payloadRef) && key !in s.dedupe && nonceKey !in s.nonces ==>
            && r.Accepted?
            && var j := r.value;
               && j.envelope == e && j.dedupeKey == dedupeKey && j.payloadRef == payloadRef && j.state == Worker.Pending
               && j.attempts == 0 && !j.failed && t.jobs == s.jobs[e.claims.jobId := j]
               && t.dedupe == s.dedupe[key := e.claims.jobId] && t.nonces == s.nonces[nonceKey := e.claims.jobId])
  {
    GenuineMeans(cfg, now, e, dedupeKey, payloadRef);
    hide Worker.Acceptable, Genuine;
  }

  /** Enqueueing the same job again, at any time its envelope is valid, answers the job as it is. */
  lemma EnqueueAgain(cfg: Worker.Config, s: Worker.WorkerState, now: Time, later: Time, e: Worker.WorkerEnvelope,
                     dedupeKey: string, payloadRef: string)
    requires Worker.Inserts(cfg, s, now, Worker.NewJob(e, dedupeKey, payloadRef)) && e.claims.expiresAt > later
    ensures
      var t := Worker.EnqueueOp(cfg, s, now, e, dedupeKey, payloadRef).0;
      && e.claims.jobId in t.jobs
      && Worker.EnqueueOp(cfg, t, later, e, dedupeKey, payloadRef) == (t, Worker.Accepted(t.jobs[e.claims.jobId]))
  {
    GenuineMeans(cfg, now, e, dedupeKey, payloadRef);
    GenuineMeans(cfg, later, e, dedupeKey, payloadRef);
    EnqueueOutcome(cfg, s, now, e, dedupeKey, payloadRef);
    var t := Worker.EnqueueOp(cfg, s, now, e, dedupeKey, payloadRef).0;
    EnqueueOutcome(cfg, t, later, e, dedupeKey, payloadRef);
    hide Worker.EnqueueOp;
  }

  /** Beginning an attempt counts it and changes nothing else; without a valid envelope it counts
      nothing and sets the job back; a finished job stays as it is. */
  lemma BeginOutcome(cfg: Worker.Config, now: Time, j: Worker.Job)
    ensures
      var n := Worker.Begun(cfg, now, j);
      var finished := j.state == Worker.Ready || j.state == Worker.StaleJob || j.state == Worker.DeadLetter;
      var valid := j.envelope.signature == Worker.EnvelopeMac(cfg.secret, j.envelope.claims)
                   && 1 <= |j.envelope.claims.nonce| <= 256 && j.envelope.claims.expiresAt > now;
      && (finished ==> n == j)
      && (!finished && valid ==> n == j.(attempts := j.attempts + 1))
      && (!finished && !valid ==>
            n == j.(state := if j.attempts >= cfg.maxAttempts then Worker.DeadLetter
                else Worker.FailedJob, failed := true))
  {
  }

  /** An answer of ready or stale becomes the job's state and clears its error; anything else, raising
      included, makes a dead letter of a job whose budget is used up and a failed one of any other. */
  lemma FinishOutcome(cfg: Worker.Config, j: Worker.Job, h: Worker.HandlerResult)
    ensures
      var n := Worker.Concluded(cfg, j, h);
      && n.(state := j.state, failed := j.failed) == j
      && (n.state == Worker.Ready <==> h == Worker.Returns(Worker.Ready))
      && (n.state == Worker.StaleJob <==> h == Worker.Returns(Worker.StaleJob))
      && (n.failed <==> h != Worker.Returns(Worker.Ready) && h != Worker.Returns(Worker.StaleJob))
      && (n.failed ==> (n.state == Worker.DeadLetter <==> j.attempts >= cfg.maxAttempts))
      && (n.failed ==> (n.state == Worker.FailedJob <==> j.attempts < cfg.maxAttempts))
  {
  }

  lemma RestartFinishesNone(cfg: Worker.Config, s: WorkerSafety.System, now: Time, items: seq<Worker.Item>,
                            id: Worker.JobId, state: Worker.JobState)
    requires state == Worker.Ready || state == Worker.StaleJob
    requires id in WorkerSafety.RestartStep(cfg, s, now, items).worker.jobs
    requires WorkerSafety.RestartStep(cfg, s, now, items).worker.jobs[id].state == state
    ensures id in s.worker.jobs && s.worker.jobs[id].state == state
  {
    hide Worker.Acceptable, Worker.Verified, Worker.Rebuilt;
    WorkerSafety.RebuiltResumable(cfg, now, items, id);
  }

  lemma EnqueueFinishesNone(cfg: Worker.Config, s: WorkerSafety.System, now: Time, e: Worker.WorkerEnvelope,
                            dedupeKey: string, payloadRef: string, id: Worker.JobId, state: Worker.JobState)
    requires state == Worker.Ready || state == Worker.StaleJob
    requires id in WorkerSafety.EnqueueStep(cfg, s, now, e, dedupeKey, payloadRef).worker.jobs
    requires WorkerSafety.EnqueueStep(cfg, s, now, e, dedupeKey, payloadRef).worker.jobs[id].state == state
    ensures id in s.worker.jobs && s.worker.jobs[id].state == state
  {
    hide Worker.Verified, Worker.SafeRef;
  }

  /** A step makes a job ready or stale only by finishing an attempt of it with that answer. */
  lemma OnlyAnswersFinish(cfg: Worker.Config, s: WorkerSafety.System, c: WorkerSafety.WorkerCall, id: Worker.JobId,
                          state: Worker.JobState)
    requires WorkerSafety.SystemInv(cfg, s) && WorkerSafety.NewIdIfInserted(cfg, s, c)
    requires state == Worker.Ready || state == Worker.StaleJob
    requires id in s.worker.jobs ==> s.worker.jobs[id].state != state
    requires id in WorkerSafety.Next(cfg, s, c).worker.jobs
        && WorkerSafety.Next(cfg, s, c).worker.jobs[id].state == state
    ensures c.step.Finish? && c.step.attempt in s.open && s.open[c.step.attempt] == Some(id)
    ensures c.step.result == Worker.Returns(state)
  {
    hide Worker.WorkerInv;
    match c.step
    case Restart(items) => RestartFinishesNone(cfg, s, c.now, items, id, state);
    case Enqueue(e, dedupeKey, payloadRef) => EnqueueFinishesNone(cfg, s, c.now, e, dedupeKey, payloadRef, id, state);
    case Begin(_) => hide Worker.Verified;
    case Finish(_, _) =>
  }

  // ---------------------------------------------------------------- the re-embedding job

  /** The owner's memories of the legacy dimension, in the bound tenant if there is one. */
  lemma EligibleMeans(t: Reembedding.Tables, s: Reembedding.Scope, id: Id)
    ensures id in Reembedding.Eligible(t, s) <==>
              && id in t.memories && t.memories[id].owner == s.owner && t.memories[id].embedding.dimension == 64
              && (s.tenant.Some? ==> t.memories[id].tenant == s.tenant)
  {
  }

  /** The row shows the memory's content, embedded at its current version. */
  ghost predicate EmbedsRow(v: Reembedding.VectorRow, row: Reembedding.Row, p: Reembedding.Provider) {
    && Some(v.vector) == p.embed(row.content) && v.sourceVersion == row.version && v.dimension == p.profile.dimension
    && v.metric == p.profile.metric
  }

  ghost predicate Usable(p: Reembedding.Provider, content: string) {
    p.embed(content).Some? && |p.embed(content).value| == p.profile.dimension
  }

  ghost predicate Handled(t: Reembedding.Tables, p: Reembedding.Provider, ids: seq<Id>, k: Reembedding.VectorKey) {
    && k.profileId == p.profile.profileId && k.profileVersion == p.profile.profileVersion
    && k.id in ids && k.id in t.memories && Usable(p, t.memories[k.id].content)
  }

  /** A pass over some memories stores for each that embeds the vector of its content at its version
      under the provider's profile, and leaves every other row and all memories as they were. */
  lemma {:induction false} PassStores(t: Reembedding.Tables, s: Reembedding.Scope, p: Reembedding.Provider,
                                      ids: seq<Id>,
                                      k: Reembedding.VectorKey)
    ensures
      var u := Reembedding.Materialised(t, s, p, ids);
      && u.memories == t.memories
      && (Handled(t, p, ids, k) ==> k in u.semantic && EmbedsRow(u.semantic[k], t.memories[k.id], p))
      && (!Handled(t, p, ids, k) ==>
            (k in u.semantic <==> k in t.semantic) && (k in t.semantic ==> u.semantic[k] == t.semantic[k]))
    decreases |ids|
  {
    if ids != [] {
      PassStores(t, s, p, ids[..|ids| - 1], k);
      assert ids == ids[..|ids| - 1] + [ids[|ids| - 1]];
    }
  }

  /** A full run followed by its cutover: each eligible memory that embeds is found by semantic search
      under the new profile, with the vector of its content. */
  lemma CutoverFindsContent(t: Reembedding.Tables, s: Reembedding.Scope, p: Reembedding.Provider, id: Id)
    requires id in Reembedding.Eligible(t, s) && Usable(p, t.memories[id].content)
    ensures
      var u := Reembedding.Materialised(t, s, p, Reembedding.Ascending(Reembedding.Remaining(t, s, None)));
      var w := Reembedding.Switched(u, s, p.profile);
      var k := Reembedding.VectorKey(id, p.profile.profileId, p.profile.profileVersion);
      && id in w.memories && w.memories[id] == t.memories[id].(embedding := p.profile)
      && k in w.semantic && EmbedsRow(w.semantic[k], w.memories[id], p)
      && Reembedding.Searchable(w, s, p.profile, id)
  {
    var ids := Reembedding.Ascending(Reembedding.Remaining(t, s, None));
    var k := Reembedding.VectorKey(id, p.profile.profileId, p.profile.profileVersion);
    assert id in ids;
    PassStores(t, s, p, ids, k);
    hide Reembedding.Materialised, Reembedding.Ascending;
    var u := Reembedding.Materialised(t, s, p, ids);
    assert Reembedding.Eligible(u, s) == Reembedding.Eligible(t, s);
  }

  /** A cutover changes the descriptor of exactly the eligible memories, and nothing else. */
  lemma SwitchMeans(t: Reembedding.Tables, s: Reembedding.Scope, profile: Descriptor, id: Id)
    ensures
      var u := Reembedding.Switched(t, s, profile);
      && u.semantic == t.semantic && u.memories.Keys == t.memories.Keys
      && (id in Reembedding.Eligible(t, s) ==> u.memories[id] == t.memories[id].(embedding := profile))
      && (id in t.memories && id !in Reembedding.Eligible(t, s) ==> u.memories[id] == t.memories[id])
  {
  }

  // ---------------------------------------------------------------- the limiter

  /** The calls of this key in the half-open window that ends now. */
  ghost function InWindow(log: seq<RateLimiter.Call>, key: RateLimiter.Key, window: real, now: real): set<nat> {
    set i: nat | i < |log| && log[i].key == key && now - window < log[i].at <= now
  }

  lemma WindowExtended(log: seq<RateLimiter.Call>, c: RateLimiter.Call, key: RateLimiter.Key, window: real, now: real)
    ensures |InWindow(log + [c], key, window, now)|
         == |InWindow(log, key, window, now)| + if c.key == key && now - window < c.at <= now then 1 else 0
  {
    var before, after := InWindow(log, key, window, now), InWindow(log + [c], key, window, now);
    assert |log| !in before;
    if c.key == key && now - window < c.at <= now {
      assert after == before + {|log|};
    } else {
      assert after == before;
    }
  }

  lemma {:induction false} WindowCount(log: seq<RateLimiter.Call>, key: RateLimiter.Key, window: real, now: real)
    ensures RateLimiter.Count(RateLimiter.TimesOf(log, key), now - window, now) == |InWindow(log, key, window, now)|
    decreases |log|
  {
    if log == [] {
      assert InWindow(log, key, window, now) == {};
    } else {
      hide RateLimiter.Count, RateLimiter.TimesOf, InWindow;
      var rest, c := log[..|log| - 1], log[|log| - 1];
      WindowCount(rest, key, window, now);
      assert log == rest + [c];
      RateLimiter.TimesOfExtended(rest, c, key);
      RateLimiter.CountExtended(RateLimiter.TimesOf(rest, key), c.at, now - window, now);
      WindowExtended(rest, c, key, window, now);
    }
  }

  /** A request is accepted exactly when fewer than `maximum` accepted calls of its tenant and tool lie
      in the window that ends with it; a refused one leaves the history of accepted calls as it is. */
  lemma RequestOutcome(l: RateLimiter.Limits, calls: seq<RateLimiter.Call>, c: RateLimiter.Call)
    ensures
      var log := RateLimiter.Accepted(l, calls);
      RateLimiter.Accepted(l, calls + [c]) ==
      if |InWindow(log, c.key, l.window, c.at)| < l.maximum then log + [c] else log
  {
    RateLimiter.AcceptedExtended(l, calls, c);
    WindowCount(RateLimiter.Accepted(l, calls), c.key, l.window, c.at);
    hide RateLimiter.Accepted, RateLimiter.Count, RateLimiter.TimesOf, InWindow;
  }
}
