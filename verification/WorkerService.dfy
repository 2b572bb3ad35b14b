/** The worker itself: job objects that are changed in place, the tables that hold them, and the calls
    of `run_one` that wait for their handlers. A waiting call keeps its job object even when the
    tables no longer do. */
module WorkerService {
  import opened Domain
  import opened Worker
  import opened WorkerSafety

  class LocalJob {
    const envelope: WorkerEnvelope
    const dedupeKey: string
    const payloadRef: string
    var state: JobState
    var attempts: int
    var failed: bool

    function Value(): Job
      reads this
    {
      Job(envelope, dedupeKey, payloadRef, state, attempts, failed)
    }

    constructor (j: Job)
      ensures Value() == j
    {
      envelope, dedupeKey, payloadRef := j.envelope, j.dedupeKey, j.payloadRef;
      state, attempts, failed := j.state, j.attempts, j.failed;
    }

    function Id(): JobId {
      envelope.claims.jobId
    }

    /** Up to the call of the handler; tells whether it is to be called. */
    method Begin(cfg: Config, now: Time) returns (called: bool)
      modifies this
      ensures Value() == Begun(cfg, now, old(Value()))
      ensures called <==> !Terminal(old(state)) && Verified(envelope, cfg.secret, now)
    {
      hide Verified;
      if state in {Ready, StaleJob, DeadLetter} {
        return false;
      }
      if !Verified(envelope, cfg.secret, now) {
        SetBack(cfg);
        return false;
      }
      attempts := attempts + 1;
      return true;
    }

    /** From the handler's answer on. */
    method Conclude(cfg: Config, h: HandlerResult)
      modifies this
      ensures Value() == Concluded(cfg, old(Value()), h)
    {
      if h.Returns? && h.state in {Ready, StaleJob} {
        state, failed := h.state, false;
      } else {
        SetBack(cfg);
      }
    }

    method SetBack(cfg: Config)
      modifies this
      ensures Value() == Setback(cfg, old(Value()))
    {
      state := if attempts >= cfg.maxAttempts then DeadLetter else FailedJob;
      failed := true;
    }
  }

  /** The id under which the table holds this very object, if it does. */
  function HolderIn(jobs: map<JobId, LocalJob>, j: LocalJob): Option<JobId> {
    if j.Id() in jobs && jobs[j.Id()] == j then Some(j.Id()) else None
  }

  function Attached(jobs: map<JobId, LocalJob>, open: map<nat, LocalJob>): map<nat, Option<JobId>> {
    map a | a in open :: HolderIn(jobs, open[a])
  }

  /** A new object in the place of another leaves the calls on that other without a place. */
  lemma ReplacedDetaches(jobs: map<JobId, LocalJob>, open: map<nat, LocalJob>, j: LocalJob)
    requires j !in open.Values
    ensures Attached(jobs[j.Id() := j], open) == Detached(Attached(jobs, open), {j.Id()})
  {
  }

  /** New objects throughout leave every call without a place. */
  lemma AllReplacedDetaches(jobs: map<JobId, LocalJob>, open: map<nat, LocalJob>, made: map<JobId, LocalJob>)
    requires made.Values !! open.Values
    ensures Attached(made, open) == Detached(Attached(jobs, open), jobs.Keys)
  {
    forall a | a in open ensures HolderIn(made, open[a]).None? {
      assert open[a] in open.Values;
    }
  }

  class LocalTenantWorker {
    const cfg: Config
    var jobs: map<JobId, LocalJob>
    var dedupe: map<IndexKey, JobId>
    var nonces: map<IndexKey, JobId>
    var open: map<nat, LocalJob>
    var next: nat

    /** Each job object is held under its own id. */
    ghost predicate Valid()
      reads this
    {
      forall id :: id in jobs ==> jobs[id].Id() == id
    }

    function Tables(): WorkerState
      reads this, jobs.Values
    {
      WorkerState(map id | id in jobs :: jobs[id].Value(), dedupe, nonces)
    }

    function Holder(j: LocalJob): Option<JobId>
      reads this
    {
      HolderIn(jobs, j)
    }

    function View(): System
      reads this, jobs.Values
    {
      System(Tables(), Attached(jobs, open), next)
    }

    /** Every job object the worker or one of its waiting calls can change. */
    function Objects(): set<LocalJob>
      reads this
    {
      jobs.Values + open.Values
    }

    constructor (secret: nat, maxAttempts: int)
      requires maxAttempts >= 1
      ensures cfg == Config(secret, maxAttempts) && Valid() && View() == START && Objects() == {}
    {
      cfg := Config(secret, maxAttempts);
      jobs, dedupe, nonces, open, next := map[], map[], map[], map[], 0;
    }

    method EnqueueJob(now: Time, e: WorkerEnvelope, dedupeKey: string, payloadRef: string) returns (r: Reply<LocalJob>)
      requires Valid()
      modifies this`jobs, this`dedupe, this`nonces
      ensures Valid() && fresh(Objects() - old(Objects()))
      ensures View() == EnqueueStep(cfg, old(View()), now, e, dedupeKey, payloadRef)
      ensures
        var reply := EnqueueOp(cfg, old(Tables()), now, e, dedupeKey, payloadRef).1;
        && (r.Accepted? <==> reply.Accepted?) && (r.Accepted? ==> r.value.Value() == reply.value)
        && (r.Rejected? ==> r.error == reply.error)
    {
      hide Verified, SafeRef;
      if !Verified(e, cfg.secret, now) || !SafeRef(dedupeKey) || !SafeRef(payloadRef) {
        return Rejected(Forbidden);
      }
      var key := IndexKey(e.claims.tenant, dedupeKey);
      if key in dedupe {
        return if dedupe[key] in jobs then Accepted(jobs[dedupe[key]]) else Rejected(UnknownJob);
      }
      var nonceKey := IndexKey(e.claims.tenant, e.claims.nonce);
      if nonceKey in nonces {
        return Rejected(Forbidden);
      }
      var job := new LocalJob(NewJob(e, dedupeKey, payloadRef));
      Hold(job);
      return Accepted(job);
    }

    /** Puts a new job object into the tables, in the place of any other with its id. */
    method Hold(job: LocalJob)
      requires Valid() && job !in Objects()
      modifies this`jobs, this`dedupe, this`nonces
      ensures Valid() && jobs == old(jobs)[job.Id() := job]
      ensures Tables() == Insert(old(Tables()), job.Value())
      ensures View() == System(Tables(), Detached(old(View()).open, {job.Id()}), next)
    {
      ghost var before := Tables();
      ReplacedDetaches(jobs, open, job);
      hide HolderIn, Detached, Attached;
      jobs := jobs[job.Id() := job];
      dedupe := dedupe[IndexKey(job.envelope.claims.tenant, job.dedupeKey) := job.Id()];
      nonces := nonces[IndexKey(job.envelope.claims.tenant, job.envelope.claims.nonce) := job.Id()];
      assert Tables().jobs == before.jobs[job.Id() := job.Value()];
    }

    /** `run_one` up to its `await`: the job, and whether its handler is called now. */
    method BeginAttempt(now: Time, id: JobId) returns (r: Reply<LocalJob>, called: bool)
      requires Valid()
      modifies this`open, this`next, jobs.Values
      ensures Valid() && Objects() <= old(Objects())
      ensures View() == BeginStep(cfg, old(View()), now, id)
      ensures called <==> HandlerRuns(cfg, old(Tables()), now, id)
      ensures r == if id in jobs then Accepted(jobs[id]) else Rejected(UnknownJob)
      ensures called ==> r.Accepted? && next == old(next) + 1 && open == old(open)[old(next) := r.value]
    {
      hide Verified;
      if id !in jobs {
        return Rejected(UnknownJob), false;
      }
      hide View, Begun, Valid;
      called := BeginJob(now, id);
      if called {
        Suspend(jobs[id]);
      }
      return Accepted(jobs[id]), called;
    }

    method BeginJob(now: Time, id: JobId) returns (called: bool)
      requires Valid() && id in jobs
      modifies jobs[id]
      ensures Valid() && Objects() == old(Objects())
      ensures
        var was := old(Tables()).jobs;
        View() == old(View()).(worker := old(Tables()).(jobs := was[id := Begun(cfg, now, was[id])]))
      ensures called <==> HandlerRuns(cfg, old(Tables()), now, id)
    {
      hide Verified, Begun;
      called := jobs[id].Begin(cfg, now);
      OneChanged(id);
    }

    /** The call waits for its handler. */
    method Suspend(job: LocalJob)
      modifies this`open, this`next
      ensures open == old(open)[old(next) := job]
      ensures View() == old(View()).(open := old(View()).open[old(next) := Holder(job)], next := old(next) + 1)
    {
      open, next := open[next := job], next + 1;
    }

    /** The call goes on. */
    method Resume(attempt: nat) returns (job: LocalJob)
      requires attempt in open
      modifies this`open
      ensures job == old(open)[attempt] && open == old(open) - {attempt}
      ensures View() == old(View()).(open := old(View()).open - {attempt})
    {
      job := open[attempt];
      open := open - {attempt};
    }

    /** Changing the object held under `id` changes that entry of the tables and nothing else. */
    twostate lemma OneChanged(id: JobId)
      requires old(Valid()) && id in jobs
      requires jobs == old(jobs) && dedupe == old(dedupe) && nonces == old(nonces)
      requires open == old(open) && next == old(next)
      requires forall k :: k in jobs && k != id ==> jobs[k].Value() == old(jobs[k].Value())
      ensures Valid()
      ensures Tables() == old(Tables()).(jobs := old(Tables()).jobs[id := jobs[id].Value()])
      ensures View().open == old(View()).open
    {
      hide LocalJob.Value;
    }

    /** The handler of a waiting call has answered. Its job object changes whether or not the tables
        still hold it. */
    method FinishAttempt(attempt: nat, h: HandlerResult)
      requires Valid()
      modifies this`open, open.Values
      ensures Valid() && Objects() <= old(Objects()) && open == old(open) - {attempt} && jobs == old(jobs)
      ensures View() == FinishStep(cfg, old(View()), attempt, h)
      ensures attempt in old(open) ==> old(open[attempt]).Value() == Concluded(cfg, old(open[attempt].Value()), h)
    {
      if attempt !in open {
        return;
      }
      assert attempt in View().open && View().open[attempt] == Holder(open[attempt]);
      hide View, Concluded, Valid;
      var job := Resume(attempt);
      ConcludeJob(job, h);
    }

    method ConcludeJob(job: LocalJob, h: HandlerResult)
      requires Valid()
      modifies job
      ensures Valid() && Objects() == old(Objects()) && job.Value() == Concluded(cfg, old(job.Value()), h)
      ensures Holder(job).None? ==> View() == old(View())
      ensures Holder(job).Some? ==>
                var was := old(Tables()).jobs;
                && job.Id() in was
                && View() ==
                   old(View()).(worker := old(Tables()).(jobs := was[job.Id() := Concluded(cfg, was[job.Id()], h)]))
    {
      hide Concluded;
      job.Conclude(cfg, h);
      if job.Id() in jobs && jobs[job.Id()] == job {
        OneChanged(job.Id());
      } else {
        NoneChanged();
      }
    }

    /** Changing an object the tables do not hold changes nothing in them. */
    twostate lemma NoneChanged()
      requires old(Valid())
      requires jobs == old(jobs) && dedupe == old(dedupe) && nonces == old(nonces)
      requires open == old(open) && next == old(next)
      requires forall k :: k in jobs ==> jobs[k].Value() == old(jobs[k].Value())
      ensures Valid() && Tables() == old(Tables()) && View().open == old(View()).open
    {
      hide LocalJob.Value;
    }

    /** `run_one`: while its handler is at work, `others` run. */
    method RunJob(now: Time, id: JobId, h: HandlerResult, others: seq<WorkerCall>) returns (r: Reply<LocalJob>)
      requires Valid()
      modifies this, Objects()
      ensures Valid() && fresh(Objects() - old(Objects()))
      ensures
        var begun := BeginStep(cfg, old(View()), now, id);
        View() == if HandlerRuns(cfg, old(Tables()), now, id)
                  then FinishStep(cfg, Play(cfg, begun, others), old(next), h) else begun
      ensures r == if id in old(jobs) then Accepted(old(jobs)[id]) else Rejected(UnknownJob)
    {
      hide View, Tables, Valid, BeginStep, FinishStep, Play, HandlerRuns;
      var called;
      r, called := BeginAttempt(now, id);
      if called {
        var attempt := next - 1;
        PerformAll(others);
        FinishAttempt(attempt, h);
      }
    }

    /** One item for each job, signed. */
    method TakeSnapshot() returns (items: seq<Item>, ghost order: seq<JobId>)
      ensures IsSnapshot(cfg, Tables(), order, items)
    {
      hide ItemOf;
      items, order := [], [];
      var todo := jobs.Keys;
      while todo != {}
        invariant todo <= jobs.Keys && |items| == |order|
        invariant forall i, j :: 0 <= i < j < |order| ==> order[i] != order[j]
        invariant forall id :: id in order <==> id in jobs && id !in todo
        invariant forall i :: 0 <= i < |order| ==> order[i] in jobs && items[i] == ItemOf(cfg, jobs[order[i]].Value())
      {
        var id :| id in todo;
        items, order := items + [ItemOf(cfg, jobs[id].Value())], order + [id];
        todo := todo - {id};
      }
    }

    /** Builds new job objects aside and swaps them in only when every item was accepted. */
    method Restore(now: Time, items: seq<Item>) returns (r: Reply<nat>)
      requires Valid()
      modifies this`jobs, this`dedupe, this`nonces
      ensures Valid() && fresh(Objects() - old(Objects()))
      ensures View() == RestartStep(cfg, old(View()), now, items) && r == RestoreOp(cfg, old(Tables()), now, items).1
    {
      hide RestartStep, RestoreOp, Rebuilt, Detached, LocalJob.Value, Readable, View, Tables, Valid, Values, Holder;
      var made, byDedupe, byNonce := Build(now, items);
      TablesInView();
      RestartFrom(cfg, View(), Tables(), now, items);
      if made.None? {
        return Rejected(Forbidden);
      }
      r := Accepted(|made.value|);
      SwapIn(made.value, byDedupe, byNonce);
    }

    lemma TablesInView()
      ensures View().worker == Tables()
    {
    }

    /** New objects for the waiting jobs of a snapshot. */
    method Build(now: Time, items: seq<Item>)
      returns (made: Option<map<JobId, LocalJob>>, byDedupe: map<IndexKey, JobId>, byNonce: map<IndexKey, JobId>)
      ensures made.None? <==> Rebuilt(cfg, now, items).None?
      ensures made.Some? ==>
                && (forall id :: id in made.value ==> fresh(made.value[id]) && made.value[id].Id() == id)
                && Rebuilt(cfg, now, items).value == WorkerState(Values(made.value), byDedupe, byNonce)
                && |made.value| == |Values(made.value)|
    {
      hide Readable, Resumable;
      var restored: map<JobId, LocalJob> := map[];
      byDedupe, byNonce := map[], map[];
      for n := 0 to |items|
        invariant forall id :: id in restored ==> fresh(restored[id]) && restored[id].Id() == id
        invariant Rebuilt(cfg, now, items[..n]) == Some(WorkerState(Values(restored), byDedupe, byNonce))
      {
        assert items[..n + 1][..n] == items[..n] && items[..n + 1][n] == items[n];
        if !Readable(cfg, now, items[n]) {
          RejectionSticks(cfg, now, items, n + 1);
          return None, byDedupe, byNonce;
        }
        ReadableParses(cfg, now, items[n]);
        var value := JobOf(items[n].fields);
        if Resumable(value) {
          if value.envelope.claims.jobId in restored || DedupeKey(value) in byDedupe || NonceKey(value) in byNonce {
            RejectionSticks(cfg, now, items, n + 1);
            return None, byDedupe, byNonce;
          }
          var job := new LocalJob(value);
          assert Values(restored[job.Id() := job]) == Values(restored)[job.Id() := value];
          restored := restored[job.Id() := job];
          byDedupe := byDedupe[DedupeKey(value) := job.Id()];
          byNonce := byNonce[NonceKey(value) := job.Id()];
        }
      }
      assert items[..|items|] == items;
      assert Values(restored).Keys == restored.Keys;
      assert |Values(restored)| == |Values(restored).Keys| && |restored| == |restored.Keys|;
      return Some(restored), byDedupe, byNonce;
    }

    static function Values(held: map<JobId, LocalJob>): map<JobId, Job>
      reads held.Values
    {
      map id | id in held :: held[id].Value()
    }

    /** The tables are replaced; waiting calls keep the objects they have. */
    method SwapIn(made: map<JobId, LocalJob>, byDedupe: map<IndexKey, JobId>, byNonce: map<IndexKey, JobId>)
      requires Valid() && forall id :: id in made ==> made[id].Id() == id && made[id] !in Objects()
      modifies this`jobs, this`dedupe, this`nonces
      ensures Valid() && Objects() <= old(Objects()) + made.Values
      ensures View() == System(WorkerState(Values(made), byDedupe, byNonce),
                               Detached(old(View()).open, old(Tables()).jobs.Keys), old(View()).next)
    {
      AllReplacedDetaches(jobs, open, made);
      hide HolderIn, Detached, Attached;
      assert Tables().jobs.Keys == jobs.Keys;
      jobs, dedupe, nonces := made, byDedupe, byNonce;
      assert Tables().jobs == Values(made);
    }

    /** Carries out one call of a run. */
    method Perform(c: WorkerCall)
      requires Valid()
      modifies this, Objects()
      ensures Valid() && fresh(Objects() - old(Objects()))
      ensures View() == Next(cfg, old(View()), c)
    {
      hide View, Valid, BeginStep, FinishStep, EnqueueStep, RestartStep, HandlerRuns;
      match c.step
      case Enqueue(e, dedupeKey, payloadRef) => var r := EnqueueJob(c.now, e, dedupeKey, payloadRef);
      case Begin(id) => var r, called := BeginAttempt(c.now, id);
      case Finish(attempt, h) => FinishAttempt(attempt, h);
      case Restart(items) => var r := Restore(c.now, items);
    }

    method PerformAll(calls: seq<WorkerCall>)
      requires Valid()
      modifies this, Objects()
      ensures Valid() && fresh(Objects() - old(Objects()))
      ensures View() == Play(cfg, old(View()), calls)
    {
      hide View, Valid, Next;
      for n := 0 to |calls|
        invariant Valid() && fresh(Objects() - old(Objects()))
        invariant View() == Play(cfg, old(View()), calls[..n])
      {
        assert calls[..n + 1][..n] == calls[..n] && calls[..n + 1][n] == calls[n];
        Perform(calls[n]);
      }
      assert calls[..|calls|] == calls;
    }
  }

  /** What a restart comes to, given the tables that the snapshot rebuilds. */
  lemma RestartFrom(cfg: Config, s: System, tables: WorkerState, now: Time, items: seq<Item>)
    requires s.worker == tables
    ensures
      var t := Rebuilt(cfg, now, items);
      && RestartStep(cfg, s, now, items) ==
         (if t.None? then s else System(t.value, Detached(s.open, tables.jobs.Keys), s.next))
      && RestoreOp(cfg, tables, now, items).1 == if t.None? then Rejected(Forbidden) else Accepted(|t.value.jobs|)
  {
  }
}
