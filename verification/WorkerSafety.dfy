/** Runs of the tenant worker in which attempts may overlap and the worker may restart. An attempt is
    two steps, because everything else can happen while `run_one` awaits its handler. */
module WorkerSafety {
  import opened Domain
  import opened Worker

  // ---------------------------------------------------------------- runs

  /** The tables, and the attempts whose handler has not answered yet. An open attempt holds its job
      object: `Some(id)` while that object is the one in the table, `None` once a restart or a reused
      id has put another in its place. */
  datatype System = System(worker: WorkerState, open: map<nat, Option<JobId>>, next: nat)

  const START := System(IDLE, map[], 0)

  datatype WorkerStep =
    | Enqueue(envelope: WorkerEnvelope, dedupeKey: string, payloadRef: string)
    | Begin(id: JobId)
    | Finish(attempt: nat, result: HandlerResult)
    | Restart(items: seq<Item>)

  datatype WorkerCall = WorkerCall(now: Time, step: WorkerStep)

  function Detached(open: map<nat, Option<JobId>>, ids: set<JobId>): map<nat, Option<JobId>> {
    map a | a in open :: if open[a].Some? && open[a].value in ids then None else open[a]
  }

  function EnqueueStep(cfg: Config, s: System, now: Time, e: WorkerEnvelope, dedupeKey: string, payloadRef: string)
    : System
  {
    var inserted := if Inserts(cfg, s.worker, now, NewJob(e, dedupeKey, payloadRef)) then {e.claims.jobId} else {};
    s.(worker := EnqueueOp(cfg, s.worker, now, e, dedupeKey, payloadRef).0, open := Detached(s.open, inserted))
  }

  /** `run_one` up to its `await`. */
  function BeginStep(cfg: Config, s: System, now: Time, id: JobId): System {
    if id !in s.worker.jobs then s
    else
      var t := s.(worker := s.worker.(jobs := s.worker.jobs[id := Begun(cfg, now, s.worker.jobs[id])]));
      if HandlerRuns(cfg, s.worker, now, id) then t.(open := s.open[s.next := Some(id)], next := s.next + 1) else t
  }

  /** The rest of it, when the handler has answered. */
  function FinishStep(cfg: Config, s: System, attempt: nat, h: HandlerResult): System {
    if attempt !in s.open then s
    else
      var t := s.(open := s.open - {attempt});
      if s.open[attempt].Some? && s.open[attempt].value in s.worker.jobs then
        var id := s.open[attempt].value;
        t.(worker := s.worker.(jobs := s.worker.jobs[id := Concluded(cfg, s.worker.jobs[id], h)]))
      else t
  }

  function RestartStep(cfg: Config, s: System, now: Time, items: seq<Item>): System {
    var (t, r) := RestoreOp(cfg, s.worker, now, items);
    if r.Accepted? then s.(worker := t, open := Detached(s.open, s.worker.jobs.Keys)) else s
  }

  function Next(cfg: Config, s: System, c: WorkerCall): System {
    match c.step
    case Enqueue(e, dedupeKey, payloadRef) => EnqueueStep(cfg, s, c.now, e, dedupeKey, payloadRef)
    case Begin(id) => BeginStep(cfg, s, c.now, id)
    case Finish(attempt, h) => FinishStep(cfg, s, attempt, h)
    case Restart(items) => RestartStep(cfg, s, c.now, items)
  }

  function Play(cfg: Config, s: System, calls: seq<WorkerCall>): System
    decreases |calls|
  {
    if calls == [] then s else Next(cfg, Play(cfg, s, calls[..|calls| - 1]), calls[|calls| - 1])
  }

  /** If the call inserts a job, its id is not in the table. */
  ghost predicate NewIdIfInserted(cfg: Config, s: System, c: WorkerCall) {
    c.step.Enqueue? && Inserts(cfg, s.worker, c.now, NewJob(c.step.envelope, c.step.dedupeKey, c.step.payloadRef)) ==>
      c.step.envelope.claims.jobId !in s.worker.jobs
  }

  /** Whatever is inserted along the run has an id of its own. The same job may come again. */
  ghost predicate DistinctIds(cfg: Config, s: System, calls: seq<WorkerCall>) {
    forall i :: 0 <= i < |calls| ==> NewIdIfInserted(cfg, Play(cfg, s, calls[..i]), calls[i])
  }

  lemma DistinctPrefix(cfg: Config, s: System, calls: seq<WorkerCall>)
    requires DistinctIds(cfg, s, calls) && calls != []
    ensures DistinctIds(cfg, s, calls[..|calls| - 1])
    ensures NewIdIfInserted(cfg, Play(cfg, s, calls[..|calls| - 1]), calls[|calls| - 1])
  {
    hide Play, NewIdIfInserted;
    var rest := calls[..|calls| - 1];
    forall i | 0 <= i < |rest| ensures NewIdIfInserted(cfg, Play(cfg, s, rest[..i]), rest[i]) {
      assert rest[..i] == calls[..i];
    }
  }

  // ---------------------------------------------------------------- consistency

  /** The tables are consistent, and an attempt that is attached works on a job of the table. */
  ghost predicate SystemInv(cfg: Config, s: System) {
    && WorkerInv(cfg, s.worker)
    && forall a :: a in s.open ==> a < s.next && (s.open[a].Some? ==> s.open[a].value in s.worker.jobs)
  }

  lemma BegunSound(cfg: Config, now: Time, j: Job)
    requires JobSound(cfg, j)
    ensures JobSound(cfg, Begun(cfg, now, j))
    ensures Begun(cfg, now, j).envelope == j.envelope && Begun(cfg, now, j).dedupeKey == j.dedupeKey
  {
  }

  lemma ConcludedSound(cfg: Config, j: Job, h: HandlerResult)
    requires JobSound(cfg, j)
    ensures JobSound(cfg, Concluded(cfg, j, h))
    ensures Concluded(cfg, j, h).envelope == j.envelope && Concluded(cfg, j, h).dedupeKey == j.dedupeKey
  {
  }

  /** Every step keeps the tables consistent, whatever overlaps and whatever is restored. */
  lemma StepKeepsInv(cfg: Config, s: System, c: WorkerCall)
    requires SystemInv(cfg, s) && NewIdIfInserted(cfg, s, c)
    ensures SystemInv(cfg, Next(cfg, s, c))
  {
    hide WorkerInv, Verified, SafeRef, Begun, Concluded, JobSound, Rebuilt;
    assert JobsSound(cfg, s.worker) && cfg.maxAttempts >= 1 by {
      InvParts(cfg, s.worker);
    }
    match c.step
    case Enqueue(e, dedupeKey, payloadRef) => EnqueueKeepsInv(cfg, s.worker, c.now, e, dedupeKey, payloadRef);
    case Begin(id) =>
      if id in s.worker.jobs {
        BegunSound(cfg, c.now, s.worker.jobs[id]);
        ChangeKeepsInv(cfg, s.worker, id, Begun(cfg, c.now, s.worker.jobs[id]));
      }
    case Finish(attempt, h) =>
      if attempt in s.open && s.open[attempt].Some? {
        var id := s.open[attempt].value;
        ConcludedSound(cfg, s.worker.jobs[id], h);
        ChangeKeepsInv(cfg, s.worker, id, Concluded(cfg, s.worker.jobs[id], h));
      }
    case Restart(items) => RebuiltInv(cfg, c.now, items);
  }

  lemma InvParts(cfg: Config, s: WorkerState)
    requires WorkerInv(cfg, s)
    ensures JobsSound(cfg, s) && cfg.maxAttempts >= 1 && Indexed(s)
  {
  }

  lemma {:induction false} RunKeepsInv(cfg: Config, s: System, calls: seq<WorkerCall>)
    requires SystemInv(cfg, s) && DistinctIds(cfg, s, calls)
    ensures SystemInv(cfg, Play(cfg, s, calls))
    decreases |calls|
  {
    if calls != [] {
      hide SystemInv, Next, DistinctIds;
      DistinctPrefix(cfg, s, calls);
      RunKeepsInv(cfg, s, calls[..|calls| - 1]);
      StepKeepsInv(cfg, Play(cfg, s, calls[..|calls| - 1]), calls[|calls| - 1]);
    }
  }

  lemma StartInv(cfg: Config)
    requires cfg.maxAttempts >= 1
    ensures SystemInv(cfg, START)
  {
  }

  /** In every reachable state both indices match the table one to one. */
  lemma ReachableInv(cfg: Config, calls: seq<WorkerCall>)
    requires cfg.maxAttempts >= 1 && DistinctIds(cfg, START, calls)
    ensures SystemInv(cfg, Play(cfg, START, calls))
  {
    StartInv(cfg);
    RunKeepsInv(cfg, START, calls);
  }

  // ---------------------------------------------------------------- handler calls are counted

  ghost function AttemptsOf(s: System, id: JobId): int {
    if id in s.worker.jobs then s.worker.jobs[id].attempts else 0
  }

  /** This call reaches the handler of `id`. */
  ghost predicate Calls(cfg: Config, s: System, c: WorkerCall, id: JobId) {
    c.step.Begin? && c.step.id == id && HandlerRuns(cfg, s.worker, c.now, id)
  }

  /** How often the handler was called for `id` along the run. */
  ghost function Handled(cfg: Config, s: System, calls: seq<WorkerCall>, id: JobId): nat
    decreases |calls|
  {
    if calls == [] then 0
    else
      var rest, last := calls[..|calls| - 1], calls[|calls| - 1];
      Handled(cfg, s, rest, id) + if Calls(cfg, Play(cfg, s, rest), last, id) then 1 else 0
  }

  /** How many counted attempts of `id` the restarts of the run have taken off the job. */
  ghost function Forgotten(cfg: Config, s: System, calls: seq<WorkerCall>, id: JobId): int
    decreases |calls|
  {
    if calls == [] then 0
    else
      var rest, last := calls[..|calls| - 1], calls[|calls| - 1];
      var mid := Play(cfg, s, rest);
      var lost := if last.step.Restart? then AttemptsOf(mid, id) - AttemptsOf(Next(cfg, mid, last), id) else 0;
      Forgotten(cfg, s, rest, id) + lost
  }

  lemma StepCounts(cfg: Config, s: System, c: WorkerCall, id: JobId)
    requires SystemInv(cfg, s) && NewIdIfInserted(cfg, s, c) && !c.step.Restart?
    ensures AttemptsOf(Next(cfg, s, c), id) == AttemptsOf(s, id) + if Calls(cfg, s, c, id) then 1 else 0
  {
    hide Indexed, SafeRef, Verified, JobsSound;
  }

  /** Over any run, whatever overlaps and whatever is restored, the handler calls of a job are the
      attempts it counts and those that restarts made it forget. */
  lemma {:induction false} CallsAreCounted(cfg: Config, calls: seq<WorkerCall>, id: JobId)
    requires cfg.maxAttempts >= 1 && DistinctIds(cfg, START, calls)
    ensures Handled(cfg, START, calls, id) == AttemptsOf(Play(cfg, START, calls), id) + Forgotten(cfg, START, calls, id)
    decreases |calls|
  {
    if calls != [] {
      hide SystemInv, Next, DistinctIds, AttemptsOf, HandlerRuns;
      var rest, last := calls[..|calls| - 1], calls[|calls| - 1];
      DistinctPrefix(cfg, START, calls);
      CallsAreCounted(cfg, rest, id);
      ReachableInv(cfg, rest);
      if !last.step.Restart? {
        StepCounts(cfg, Play(cfg, START, rest), last, id);
      }
    } else {
      assert AttemptsOf(START, id) == 0;
    }
  }

  ghost predicate NoRestart(calls: seq<WorkerCall>) {
    forall i :: 0 <= i < |calls| ==> !calls[i].step.Restart?
  }

  lemma {:induction false} NothingForgotten(cfg: Config, s: System, calls: seq<WorkerCall>, id: JobId)
    requires NoRestart(calls)
    ensures Forgotten(cfg, s, calls, id) == 0
    decreases |calls|
  {
    if calls != [] {
      hide Next, Play;
      NothingForgotten(cfg, s, calls[..|calls| - 1], id);
    }
  }

  /** If the call reaches the handler of `id`, the budget was not used up. */
  ghost predicate Affordable(cfg: Config, s: System, c: WorkerCall, id: JobId) {
    Calls(cfg, s, c, id) ==> AttemptsOf(s, id) < cfg.maxAttempts
  }

  ghost predicate AllAffordable(cfg: Config, s: System, calls: seq<WorkerCall>, id: JobId) {
    forall i :: 0 <= i < |calls| ==> Affordable(cfg, Play(cfg, s, calls[..i]), calls[i], id)
  }

  lemma AffordableLast(cfg: Config, s: System, calls: seq<WorkerCall>, id: JobId)
    requires calls != []
    ensures AllAffordable(cfg, s, calls, id) <==>
              && AllAffordable(cfg, s, calls[..|calls| - 1], id)
              && Affordable(cfg, Play(cfg, s, calls[..|calls| - 1]), calls[|calls| - 1], id)
  {
    hide Play, Affordable;
    var rest, n := calls[..|calls| - 1], |calls| - 1;
    assert calls[..n] == rest;
    assert forall i :: 0 <= i < n ==> rest[..i] == calls[..i] && rest[i] == calls[i];
  }

  /** Without restarts a run keeps a job's budget exactly when each of its handler calls found the
      budget not yet used up. */
  lemma {:induction false} BudgetKeptIff(cfg: Config, calls: seq<WorkerCall>, id: JobId)
    requires cfg.maxAttempts >= 1 && DistinctIds(cfg, START, calls) && NoRestart(calls)
    ensures Handled(cfg, START, calls, id) <= cfg.maxAttempts <==> AllAffordable(cfg, START, calls, id)
    decreases |calls|
  {
    if calls != [] {
      hide Next, DistinctIds, AttemptsOf, Calls, Play, AllAffordable;
      var rest := calls[..|calls| - 1];
      DistinctPrefix(cfg, START, calls);
      BudgetKeptIff(cfg, rest, id);
      CallsAreCounted(cfg, rest, id);
      NothingForgotten(cfg, START, rest, id);
      AffordableLast(cfg, START, calls, id);
    }
  }

  // ---------------------------------------------------------------- one attempt of a job at a time

  ghost predicate Busy(s: System, id: JobId) {
    exists a :: a in s.open && s.open[a] == Some(id)
  }

  ghost predicate OneOpen(s: System, id: JobId) {
    forall a, b :: a in s.open && b in s.open && s.open[a] == s.open[b] == Some(id) ==> a == b
  }

  /** A job within its budget: waiting below it, working within it, finished for good. */
  ghost predicate Within(cfg: Config, j: Job, busy: bool) {
    match j.state
    case Pending => if busy then 1 <= j.attempts <= cfg.maxAttempts else j.attempts < cfg.maxAttempts
    case FailedJob => if busy then 1 <= j.attempts <= cfg.maxAttempts else j.attempts < cfg.maxAttempts
    case DeadLetter => !busy && j.attempts == cfg.maxAttempts
    case Ready => !busy && 1 <= j.attempts <= cfg.maxAttempts
    case StaleJob => !busy && 1 <= j.attempts <= cfg.maxAttempts
  }

  ghost predicate InBudget(cfg: Config, s: System, id: JobId) {
    OneOpen(s, id) && (id in s.worker.jobs ==> Within(cfg, s.worker.jobs[id], Busy(s, id)))
  }

  /** The job is not run while an attempt of it is open, and no restart brings it back with its budget
      used up. */
  ghost predicate Guarded(cfg: Config, s: System, c: WorkerCall, id: JobId) {
    && (c.step.Begin? && c.step.id == id ==> !Busy(s, id))
    && (c.step.Restart? && RestoreOp(cfg, s.worker, c.now, c.step.items).1.Accepted? ==>
          AttemptsOf(Next(cfg, s, c), id) < cfg.maxAttempts)
  }

  ghost predicate GuardedRun(cfg: Config, s: System, calls: seq<WorkerCall>, id: JobId) {
    forall i :: 0 <= i < |calls| ==> Guarded(cfg, Play(cfg, s, calls[..i]), calls[i], id)
  }

  lemma GuardedPrefix(cfg: Config, s: System, calls: seq<WorkerCall>, id: JobId)
    requires GuardedRun(cfg, s, calls, id) && calls != []
    ensures GuardedRun(cfg, s, calls[..|calls| - 1], id)
    ensures Guarded(cfg, Play(cfg, s, calls[..|calls| - 1]), calls[|calls| - 1], id)
  {
    hide Play, Guarded;
    var rest := calls[..|calls| - 1];
    forall i | 0 <= i < |rest| ensures Guarded(cfg, Play(cfg, s, rest[..i]), rest[i], id) {
      assert rest[..i] == calls[..i];
    }
  }

  lemma EnqueueInBudget(cfg: Config, s: System, c: WorkerCall, id: JobId)
    requires SystemInv(cfg, s) && NewIdIfInserted(cfg, s, c) && c.step.Enqueue? && InBudget(cfg, s, id)
    ensures InBudget(cfg, Next(cfg, s, c), id)
  {
    hide Verified, SafeRef, Indexed, JobsSound, DedupeKey, NonceKey;
    var t := Next(cfg, s, c);
    if Inserts(cfg, s.worker, c.now, NewJob(c.step.envelope, c.step.dedupeKey, c.step.payloadRef)) {
      assert t.open == s.open;
    } else {
      assert t.open == s.open;
    }
  }

  lemma BeginInBudget(cfg: Config, s: System, now: Time, other: JobId, id: JobId)
    requires SystemInv(cfg, s) && InBudget(cfg, s, id) && (other == id ==> !Busy(s, id))
    ensures InBudget(cfg, BeginStep(cfg, s, now, other), id)
  {
    hide Verified, SafeRef, Indexed;
    var t := BeginStep(cfg, s, now, other);
    if HandlerRuns(cfg, s.worker, now, other) {
      assert t.open[s.next] == Some(other) && s.next !in s.open;
      assert forall a :: a in s.open ==> a in t.open && t.open[a] == s.open[a];
      assert Busy(t, id) <==> other == id || Busy(s, id);
    }
  }

  lemma FinishInBudget(cfg: Config, s: System, attempt: nat, h: HandlerResult, id: JobId)
    requires SystemInv(cfg, s) && InBudget(cfg, s, id)
    ensures InBudget(cfg, FinishStep(cfg, s, attempt, h), id)
  {
    hide Verified, SafeRef, Indexed;
    var t := FinishStep(cfg, s, attempt, h);
    if attempt in s.open {
      assert forall a :: a in s.open && a != attempt ==> a in t.open && t.open[a] == s.open[a];
      if s.open[attempt] == Some(id) {
        assert !Busy(t, id);
      } else {
        assert Busy(t, id) <==> Busy(s, id);
      }
    }
  }

  lemma RestartInBudget(cfg: Config, s: System, now: Time, items: seq<Item>, id: JobId)
    requires SystemInv(cfg, s) && InBudget(cfg, s, id) && Guarded(cfg, s, WorkerCall(now, Restart(items)), id)
    ensures InBudget(cfg, RestartStep(cfg, s, now, items), id)
  {
    hide Verified, SafeRef, Indexed, Readable, Rebuilt, Resumable, JobsSound;
    var t := RestartStep(cfg, s, now, items);
    if RestoreOp(cfg, s.worker, now, items).1.Accepted? {
      assert t == Next(cfg, s, WorkerCall(now, Restart(items))) && t.worker == Rebuilt(cfg, now, items).value;
      assert AttemptsOf(t, id) < cfg.maxAttempts && !Busy(t, id);
      RebuiltResumable(cfg, now, items, id);
      WaitingWithin(cfg, t, id);
    }
  }

  lemma WaitingWithin(cfg: Config, s: System, id: JobId)
    requires !Busy(s, id) && AttemptsOf(s, id) < cfg.maxAttempts
    requires id in s.worker.jobs ==> Resumable(s.worker.jobs[id])
    ensures InBudget(cfg, s, id)
  {
  }

  lemma {:induction false} RebuiltResumable(cfg: Config, now: Time, items: seq<Item>, id: JobId)
    ensures
      var t := Rebuilt(cfg, now, items);
      t.Some? && id in t.value.jobs ==> Resumable(t.value.jobs[id])
    decreases |items|
  {
    if items != [] {
      hide Readable, Resumable, Taken;
      RebuiltResumable(cfg, now, items[..|items| - 1], id);
    }
  }

  /** Under the guard every step keeps a job within its budget. */
  lemma StepInBudget(cfg: Config, s: System, c: WorkerCall, id: JobId)
    requires SystemInv(cfg, s) && NewIdIfInserted(cfg, s, c) && InBudget(cfg, s, id) && Guarded(cfg, s, c, id)
    ensures InBudget(cfg, Next(cfg, s, c), id)
  {
    hide SystemInv, NewIdIfInserted, InBudget, Guarded, EnqueueStep, BeginStep, FinishStep, RestartStep, Busy;
    match c.step
    case Enqueue(_, _, _) => EnqueueInBudget(cfg, s, c, id);
    case Begin(other) =>
      if other == id {
        GuardOfBegin(cfg, s, c, id);
      }
      BeginInBudget(cfg, s, c.now, other, id);
    case Finish(attempt, h) => FinishInBudget(cfg, s, attempt, h, id);
    case Restart(items) => RestartInBudget(cfg, s, c.now, items, id);
  }

  lemma GuardOfBegin(cfg: Config, s: System, c: WorkerCall, id: JobId)
    requires Guarded(cfg, s, c, id) && c.step.Begin? && c.step.id == id
    ensures !Busy(s, id)
  {
  }

  lemma {:induction false} RunInBudget(cfg: Config, s: System, calls: seq<WorkerCall>, id: JobId)
    requires SystemInv(cfg, s) && DistinctIds(cfg, s, calls) && InBudget(cfg, s, id) && GuardedRun(cfg, s, calls, id)
    ensures InBudget(cfg, Play(cfg, s, calls), id)
    decreases |calls|
  {
    if calls != [] {
      hide SystemInv, Next, DistinctIds, InBudget, GuardedRun, Guarded, NewIdIfInserted;
      var rest := calls[..|calls| - 1];
      DistinctPrefix(cfg, s, calls);
      GuardedPrefix(cfg, s, calls, id);
      RunInBudget(cfg, s, rest, id);
      RunKeepsInv(cfg, s, rest);
      StepInBudget(cfg, Play(cfg, s, rest), calls[|calls| - 1], id);
    }
  }

  lemma InBudgetBound(cfg: Config, s: System, id: JobId)
    requires SystemInv(cfg, s) && InBudget(cfg, s, id)
    ensures 0 <= AttemptsOf(s, id) <= cfg.maxAttempts
  {
  }

  /** Retries are bounded. Over a guarded run the job's attempts never exceed the budget, so its
      handler is called at most that often beyond the calls that restarts made it forget. */
  lemma RetriesAreBounded(cfg: Config, calls: seq<WorkerCall>, id: JobId)
    requires cfg.maxAttempts >= 1 && DistinctIds(cfg, START, calls) && GuardedRun(cfg, START, calls, id)
    ensures 0 <= AttemptsOf(Play(cfg, START, calls), id) <= cfg.maxAttempts
    ensures Handled(cfg, START, calls, id) <= cfg.maxAttempts + Forgotten(cfg, START, calls, id)
    ensures NoRestart(calls) ==> Handled(cfg, START, calls, id) <= cfg.maxAttempts
  {
    assert InBudget(cfg, START, id);
    StartInv(cfg);
    ReachableInv(cfg, calls);
    RunInBudget(cfg, START, calls, id);
    hide SystemInv, InBudget, Play, DistinctIds, GuardedRun;
    InBudgetBound(cfg, Play(cfg, START, calls), id);
    CallsAreCounted(cfg, calls, id);
    if NoRestart(calls) {
      NothingForgotten(cfg, START, calls, id);
    }
  }

  // ---------------------------------------------------------------- what the states mean

  /** Without restarts, pending means no attempt yet, or the first one at work. */
  ghost predicate Fresh(s: System, id: JobId) {
    id in s.worker.jobs && s.worker.jobs[id].state == Pending ==>
      s.worker.jobs[id].attempts == if Busy(s, id) then 1 else 0
  }

  lemma StepKeepsFresh(cfg: Config, s: System, c: WorkerCall, id: JobId)
    requires SystemInv(cfg, s) && NewIdIfInserted(cfg, s, c) && InBudget(cfg, s, id) && Guarded(cfg, s, c, id)
    requires !c.step.Restart? && Fresh(s, id)
    ensures Fresh(Next(cfg, s, c), id)
  {
    hide Verified, SafeRef, Indexed, JobsSound, DedupeKey, NonceKey;
    var t := Next(cfg, s, c);
    match c.step
    case Enqueue(_, _, _) => assert t.open == s.open;
    case Begin(other) =>
      if HandlerRuns(cfg, s.worker, c.now, other) {
        assert t.open[s.next] == Some(other) && s.next !in s.open;
        assert forall a :: a in s.open ==> a in t.open && t.open[a] == s.open[a];
        assert Busy(t, id) <==> other == id || Busy(s, id);
      }
    case Finish(attempt, h) =>
      if attempt in s.open && s.open[attempt] != Some(id) {
        assert forall a :: a in s.open && a != attempt ==> a in t.open && t.open[a] == s.open[a];
        assert Busy(t, id) <==> Busy(s, id);
      }
  }

  /** Over a guarded run without restarts: pending is 0 attempts, or 1 while the first is at work;
      failed is below the budget, or up to it while an attempt is at work; dead-letter is the whole
      budget; and a finished job is not at work. */
  lemma {:induction false} StatesMean(cfg: Config, calls: seq<WorkerCall>, id: JobId)
    requires cfg.maxAttempts >= 1 && DistinctIds(cfg, START, calls) && NoRestart(calls)
    requires GuardedRun(cfg, START, calls, id)
    ensures InBudget(cfg, Play(cfg, START, calls), id) && Fresh(Play(cfg, START, calls), id)
    decreases |calls|
  {
    StartInv(cfg);
    assert InBudget(cfg, START, id) && Fresh(START, id);
    RunInBudget(cfg, START, calls, id);
    if calls != [] {
      hide SystemInv, Next, DistinctIds, InBudget, GuardedRun, Guarded, NewIdIfInserted, Fresh;
      var rest := calls[..|calls| - 1];
      DistinctPrefix(cfg, START, calls);
      GuardedPrefix(cfg, START, calls, id);
      StatesMean(cfg, rest, id);
      ReachableInv(cfg, rest);
      StepKeepsFresh(cfg, Play(cfg, START, rest), calls[|calls| - 1], id);
    }
  }

  // ---------------------------------------------------------------- finished jobs

  ghost predicate Finished(s: System, id: JobId, j: Job) {
    id in s.worker.jobs && s.worker.jobs[id] == j && Terminal(j.state) && !Busy(s, id)
  }

  lemma StepKeepsFinished(cfg: Config, s: System, c: WorkerCall, id: JobId, j: Job)
    requires SystemInv(cfg, s) && NewIdIfInserted(cfg, s, c) && !c.step.Restart? && Finished(s, id, j)
    ensures Finished(Next(cfg, s, c), id, j)
  {
    hide Verified, SafeRef, Indexed, JobsSound;
  }

  lemma {:induction false} FinishedStays(cfg: Config, s: System, calls: seq<WorkerCall>, id: JobId, j: Job)
    requires SystemInv(cfg, s) && DistinctIds(cfg, s, calls) && NoRestart(calls) && Finished(s, id, j)
    ensures Finished(Play(cfg, s, calls), id, j)
    decreases |calls|
  {
    if calls != [] {
      hide SystemInv, Next, DistinctIds, Finished, NewIdIfInserted;
      var rest := calls[..|calls| - 1];
      DistinctPrefix(cfg, s, calls);
      FinishedStays(cfg, s, rest, id, j);
      RunKeepsInv(cfg, s, rest);
      StepKeepsFinished(cfg, Play(cfg, s, rest), calls[|calls| - 1], id, j);
    }
  }

  ghost predicate Unchanged(cfg: Config, s: System, calls: seq<WorkerCall>, id: JobId) {
    var t := Play(cfg, s, calls);
    id in s.worker.jobs && id in t.worker.jobs && t.worker.jobs[id] == s.worker.jobs[id]
  }

  /** Ready, stale and dead-letter are absorbing exactly when no attempt of the job is still open: then
      no run changes the job, whatever is run and enqueued; and otherwise the open attempt can. */
  lemma TerminalIsAbsorbing(cfg: Config, s: System, id: JobId)
    requires SystemInv(cfg, s) && id in s.worker.jobs && Terminal(s.worker.jobs[id].state)
    ensures (forall calls :: DistinctIds(cfg, s, calls) && NoRestart(calls) ==> Unchanged(cfg, s, calls, id)) <==>
              !Busy(s, id)
  {
    if Busy(s, id) {
      var a :| a in s.open && s.open[a] == Some(id);
      LateAnswer(cfg, s, a, id);
    } else {
      assert Finished(s, id, s.worker.jobs[id]);
      hide DistinctIds, SystemInv, Play;
      forall calls | DistinctIds(cfg, s, calls) && NoRestart(calls) ensures Unchanged(cfg, s, calls, id) {
        FinishedStays(cfg, s, calls, id, s.worker.jobs[id]);
      }
    }
  }

  /** An answer that comes late overwrites the state. */
  lemma LateAnswer(cfg: Config, s: System, a: nat, id: JobId)
    requires SystemInv(cfg, s) && id in s.worker.jobs && Terminal(s.worker.jobs[id].state)
    requires a in s.open && s.open[a] == Some(id)
    ensures
      var h := if s.worker.jobs[id].state == Ready then Raises else Returns(Ready);
      var calls := [WorkerCall(0, Finish(a, h))];
      DistinctIds(cfg, s, calls) && NoRestart(calls) && !Unchanged(cfg, s, calls, id)
  {
    var h := if s.worker.jobs[id].state == Ready then Raises else Returns(Ready);
    var calls := [WorkerCall(0, Finish(a, h))];
    assert calls[..0] == [];
    hide SystemInv;
  }

  // ---------------------------------------------------------------- restarting in the middle of an attempt

  /** What a worker holds after it took in another's snapshot in which nothing has expired: the waiting
      and working jobs as they were, and no attempt that works on them. */
  lemma RestartTakesOver(cfg: Config, s: System, into: System, now: Time, order: seq<JobId>, items: seq<Item>)
    requires SystemInv(cfg, s) && SystemInv(cfg, into) && IsSnapshot(cfg, s.worker, order, items)
    requires forall k :: k in s.worker.jobs ==> s.worker.jobs[k].envelope.claims.expiresAt > now
    ensures
      var r := RestartStep(cfg, into, now, items);
      && SystemInv(cfg, r) && (forall a :: a in r.open ==> r.open[a].None?)
      && (forall k :: k in r.worker.jobs <==> k in s.worker.jobs && Resumable(s.worker.jobs[k]))
      && (forall k :: k in r.worker.jobs ==> r.worker.jobs[k] == s.worker.jobs[k])
  {
    var r := RestartStep(cfg, into, now, items);
    RestartedTables(cfg, s, into, now, order, items);
    assert r == Next(cfg, into, WorkerCall(now, Restart(items)));
    StepKeepsInv(cfg, into, WorkerCall(now, Restart(items)));
    ProjectionJobs(s.worker);
    AllDetached(cfg, into);
    hide *;
  }

  lemma RestartedTables(cfg: Config, s: System, into: System, now: Time, order: seq<JobId>, items: seq<Item>)
    requires WorkerInv(cfg, s.worker) && IsSnapshot(cfg, s.worker, order, items)
    requires forall k :: k in s.worker.jobs ==> s.worker.jobs[k].envelope.claims.expiresAt > now
    ensures RestartStep(cfg, into, now, items) ==
            into.(worker := Projection(s.worker, s.worker.jobs.Keys),
                  open := Detached(into.open, into.worker.jobs.Keys))
  {
    hide WorkerInv, IsSnapshot, Projection, RestoreOp, Detached;
    RestartIsProjection(cfg, s.worker, into.worker, now, order, items);
  }

  lemma AllDetached(cfg: Config, s: System)
    requires SystemInv(cfg, s)
    ensures
      var open := Detached(s.open, s.worker.jobs.Keys);
      forall a :: a in open ==> open[a].None?
  {
    hide WorkerInv;
  }

  lemma ProjectionJobs(s: WorkerState)
    ensures
      var t := Projection(s, s.jobs.Keys);
      && (forall k :: k in t.jobs <==> k in s.jobs && Resumable(s.jobs[k]))
      && (forall k :: k in t.jobs ==> t.jobs[k] == s.jobs[k])
  {
  }

  /** Every run from here on in which the job is run one attempt at a time keeps its budget. */
  ghost predicate KeepsBudget(cfg: Config, s: System, id: JobId) {
    forall calls :: DistinctIds(cfg, s, calls) && NoRestart(calls) && GuardedRun(cfg, s, calls, id) ==>
      AttemptsOf(Play(cfg, s, calls), id) <= cfg.maxAttempts
  }

  /** Restart. A worker that takes over a snapshot keeps a job's budget from then on exactly when the
      snapshot was not taken while the last attempt of that budget was at work. */
  lemma RestartKeepsBudgetIff(cfg: Config, s: System, into: System, now: Time, order: seq<JobId>, items: seq<Item>,
                              id: JobId)
    requires SystemInv(cfg, s) && InBudget(cfg, s, id)
    requires SystemInv(cfg, into) && IsSnapshot(cfg, s.worker, order, items)
    requires forall k :: k in s.worker.jobs ==> s.worker.jobs[k].envelope.claims.expiresAt > now
    ensures KeepsBudget(cfg, RestartStep(cfg, into, now, items), id) <==>
              !(Busy(s, id) && AttemptsOf(s, id) == cfg.maxAttempts)
  {
    var r := RestartStep(cfg, into, now, items);
    RestartTakesOver(cfg, s, into, now, order, items);
    hide RestartStep, IsSnapshot;
    if Busy(s, id) && AttemptsOf(s, id) == cfg.maxAttempts {
      assert id in r.worker.jobs && Verified(r.worker.jobs[id].envelope, cfg.secret, now);
      LastAttemptAgain(cfg, r, now, id);
    } else {
      assert InBudget(cfg, r, id);
      hide DistinctIds, SystemInv, Play, InBudget, GuardedRun;
      forall calls | DistinctIds(cfg, r, calls) && NoRestart(calls) && GuardedRun(cfg, r, calls, id)
        ensures AttemptsOf(Play(cfg, r, calls), id) <= cfg.maxAttempts
      {
        RunInBudget(cfg, r, calls, id);
        RunKeepsInv(cfg, r, calls);
        InBudgetBound(cfg, Play(cfg, r, calls), id);
      }
    }
  }

  lemma LastAttemptAgain(cfg: Config, r: System, now: Time, id: JobId)
    requires id in r.worker.jobs && r.worker.jobs[id].attempts == cfg.maxAttempts && Resumable(r.worker.jobs[id])
    requires Verified(r.worker.jobs[id].envelope, cfg.secret, now) && !Busy(r, id)
    ensures !KeepsBudget(cfg, r, id)
  {
    var calls := [WorkerCall(now, Begin(id))];
    assert calls[..0] == [] && calls[..|calls| - 1] == [];
    assert DistinctIds(cfg, r, calls) && NoRestart(calls) && GuardedRun(cfg, r, calls, id);
    assert AttemptsOf(Play(cfg, r, calls), id) == cfg.maxAttempts + 1;
  }

  // ---------------------------------------------------------------- two runs that break the budget

  lemma OneMore(cfg: Config, s: System, calls: seq<WorkerCall>, c: WorkerCall, id: JobId)
    ensures Play(cfg, s, calls + [c]) == Next(cfg, Play(cfg, s, calls), c)
    ensures Handled(cfg, s, calls + [c], id) ==
            Handled(cfg, s, calls, id) + if Calls(cfg, Play(cfg, s, calls), c, id) then 1 else 0
    ensures DistinctIds(cfg, s, calls + [c]) <==>
              DistinctIds(cfg, s, calls) && NewIdIfInserted(cfg, Play(cfg, s, calls), c)
  {
    hide Next, Calls, NewIdIfInserted;
    var more, n := calls + [c], |calls|;
    assert more[..n] == calls && more[n] == c;
    assert forall i :: 0 <= i < n ==> more[..i] == calls[..i] && more[i] == calls[i];
    hide Play;
    if DistinctIds(cfg, s, more) {
      assert NewIdIfInserted(cfg, Play(cfg, s, more[..n]), more[n]);
    }
  }

  lemma EnqueuedFirst(cfg: Config, now: Time, e: WorkerEnvelope)
    requires Verified(e, cfg.secret, now)
    ensures
      var calls := [WorkerCall(now, Enqueue(e, "d", "p"))];
      var s := Play(cfg, START, calls);
      && s == System(Insert(IDLE, NewJob(e, "d", "p")), map[], 0)
      && DistinctIds(cfg, START, calls) && Handled(cfg, START, calls, e.claims.jobId) == 0
  {
    assert SafeRef("d") && SafeRef("p");
    OneMore(cfg, START, [], WorkerCall(now, Enqueue(e, "d", "p")), e.claims.jobId);
    assert [] + [WorkerCall(now, Enqueue(e, "d", "p"))] == [WorkerCall(now, Enqueue(e, "d", "p"))];
    assert Play(cfg, START, []) == START;
    hide SafeRef, Verified;
  }

  /** Overlap. With a budget of one, a second call begins while the first is at work: the handler is
      called twice, and the late failure turns a ready job into a dead letter. */
  lemma OverlapBreaksBudget(cfg: Config, now: Time, e: WorkerEnvelope)
    requires cfg.maxAttempts == 1 && Verified(e, cfg.secret, now)
    ensures
      var id := e.claims.jobId;
      var first := [WorkerCall(now, Enqueue(e, "d", "p"))] + [WorkerCall(now, Begin(id))] + [WorkerCall(now, Begin(id))]
                   + [WorkerCall(now, Finish(0, Returns(Ready)))];
      var calls := first + [WorkerCall(now, Finish(1, Raises))];
      var s, t := Play(cfg, START, first), Play(cfg, START, calls);
      && DistinctIds(cfg, START, calls) && Handled(cfg, START, calls, id) == 2
      && id in s.worker.jobs && s.worker.jobs[id].state == Ready
      && id in t.worker.jobs && t.worker.jobs[id].state == DeadLetter
  {
    var id := e.claims.jobId;
    var a := [WorkerCall(now, Enqueue(e, "d", "p"))];
    var b := a + [WorkerCall(now, Begin(id))];
    var c := b + [WorkerCall(now, Begin(id))];
    var d := c + [WorkerCall(now, Finish(0, Returns(Ready)))];
    EnqueuedFirst(cfg, now, e);
    OneMore(cfg, START, a, WorkerCall(now, Begin(id)), id);
    OneMore(cfg, START, b, WorkerCall(now, Begin(id)), id);
    OneMore(cfg, START, c, WorkerCall(now, Finish(0, Returns(Ready))), id);
    OneMore(cfg, START, d, WorkerCall(now, Finish(1, Raises)), id);
    hide Play, Handled, DistinctIds, Verified;
  }

  /** Restart. With a budget of one, a snapshot taken while the attempt is at work is accepted and the
      job runs again: no two calls overlap, and the handler is called twice. */
  lemma RestartBreaksBudget(cfg: Config, now: Time, e: WorkerEnvelope)
    requires cfg.maxAttempts == 1 && Verified(e, cfg.secret, now)
    ensures
      var id := e.claims.jobId;
      var items := [ItemOf(cfg, NewJob(e, "d", "p").(attempts := 1))];
      var first := [WorkerCall(now, Enqueue(e, "d", "p"))] + [WorkerCall(now, Begin(id))];
      var restarted := first + [WorkerCall(now, Restart(items))];
      var calls := restarted + [WorkerCall(now, Begin(id))];
      && IsSnapshot(cfg, Play(cfg, START, first).worker, [id], items) && !Busy(Play(cfg, START, restarted), id)
      && DistinctIds(cfg, START, calls) && Handled(cfg, START, calls, id) == 2
      && AttemptsOf(Play(cfg, START, calls), id) == 2
  {
    var id := e.claims.jobId;
    var items := [ItemOf(cfg, NewJob(e, "d", "p").(attempts := 1))];
    var a := [WorkerCall(now, Enqueue(e, "d", "p"))];
    var b := a + [WorkerCall(now, Begin(id))];
    var c := b + [WorkerCall(now, Restart(items))];
    EnqueuedFirst(cfg, now, e);
    OneMore(cfg, START, a, WorkerCall(now, Begin(id)), id);
    OneMore(cfg, START, b, WorkerCall(now, Restart(items)), id);
    OneMore(cfg, START, c, WorkerCall(now, Begin(id)), id);
    assert SafeRef("d") && SafeRef("p");
    assert items[..0] == [] && items[..|items| - 1] == [];
    assert Rebuilt(cfg, now, []) == Some(IDLE);
    assert Rebuilt(cfg, now, items) == Absorb(cfg, now, Some(IDLE), items[0]);
    hide Play, Handled, DistinctIds, Rebuilt, SafeRef;
  }
}
