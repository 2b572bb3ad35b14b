/** Repeating a keyed update, confirm or pin returns the version it returned the first time,
    however many transactions ran in between. */
module ReplayStability {
  import opened Domain
  import opened MemoryStore
  import opened StoreInvariants
  import opened Lifecycle
  import opened Outcomes

  /** The three commands whose replay rebuilds a memory version. */
  predicate Versioned(c: Command) {
    c.Confirm? || c.Pin? || (c.Update? && OperationOf(c).Some?)
  }

  function OwnerOf(c: Command): string requires Versioned(c) {
    if c.Confirm? then c.confirm.owner else if c.Pin? then c.pin.owner else c.update.owner
  }

  function TenantOf(c: Command): Option<string> requires Versioned(c) {
    if c.Confirm? then Some(c.confirm.tenant) else if c.Pin? then Some(c.pin.tenant) else None
  }

  function SubjectOf(c: Command): Id requires Versioned(c) {
    if c.Confirm? then c.confirm.memoryId else if c.Pin? then c.pin.memoryId else c.update.memoryId
  }

  function ExpectedOf(c: Command): int requires Versioned(c) {
    if c.Confirm? then c.confirm.expectedVersion else if c.Pin? then c.pin.expectedVersion
    else c.update.expectedVersion
  }

  function DigestOf(c: Command): Fingerprint requires Versioned(c) {
    if c.Confirm? then ConfirmFingerprint(c.confirm) else if c.Pin? then PinFingerprint(c.pin)
    else UpdateFingerprint(c.update)
  }

  /** The checks a command passes before it looks at the store. */
  predicate Permitted(c: Command) requires Versioned(c) {
    match c
    case Confirm(w) => MutationAllowed(w.scopes, "memory:write", w.tenant, w.owner, w.revoked).Ok?
    case Pin(w) => MutationAllowed(w.scopes, "memory:write", w.tenant, w.owner, w.revoked).Ok?
    case Update(w) => ValidOwner(w.owner)
  }

  /** The ledger row of `c` points at this version of `m`. */
  ghost predicate Pointed(s: Store, c: Command, m: Memory)
    requires Versioned(c)
  {
    && OperationOf(c).value in s.operations
    && var row := s.operations[OperationOf(c).value];
       && row.fingerprint == DigestOf(c) && row.status == Completed
       && OrElse(row.memoryId, SubjectOf(c)) == m.id && OrElse(row.resultVersion, ExpectedOf(c)) == m.version
  }

  /** The store still has `m`: its snapshot rebuilds it, and while the memory is at that version it
      is `m`, all but the embedding descriptor. Nothing is asked of the other snapshots. */
  ghost predicate Kept(s: Store, m: Memory) {
    && m.id in s.memories && m.id in s.history && SameIdentity(s.memories[m.id], m)
    && 1 <= m.version <= |s.history[m.id]|
    && Rebuild(s.memories[m.id], s.history[m.id][m.version - 1]) == Ok(m.(embedding := s.memories[m.id].embedding))
    && (s.memories[m.id].version == m.version ==> s.memories[m.id] == m.(embedding := s.memories[m.id].embedding))
  }

  /** The last snapshot of the memory rebuilds it. */
  ghost predicate Restores(s: Store, id: Id) {
    && id in s.memories && id in s.history && |s.history[id]| > 0
    && Rebuild(s.memories[id], s.history[id][|s.history[id]| - 1]) == Ok(s.memories[id])
  }

  /** The store remembers that `c` returned `m`. */
  ghost predicate Remembers(s: Store, c: Command, m: Memory)
    requires Versioned(c)
  {
    Pointed(s, c, m) && Kept(s, m) && Visible(m, OwnerOf(c), TenantOf(c))
  }

  /** The command answered with the current value of the memory without writing a version: a pin
      that had nothing to change, or a replay of the current version. */
  ghost predicate AnsweredCurrent(s: Store, step: Step, m: Memory)
    requires Decide(s, step.env, step.command).Ok?
  {
    && !Decide(s, step.env, step.command).value.effect.Advance?
    && m.id in s.memories && s.memories[m.id].version == m.version
  }

  // ---------------------------------------------------------------- the answer

  lemma {:induction false} FindInComplete(h: seq<MemoryVersion>, from: nat, version: nat)
    requires from + 1 <= version <= from + |h|
    requires forall i :: 0 <= i < |h| ==> h[i].version == from + i + 1
    ensures FindVersion(h, version) == Some(h[version - from - 1])
    decreases |h|
  {
    if h[0].version != version {
      FindInComplete(h[1..], from + 1, version);
    }
  }

  /** Rebuilding uses the identity of the current value and its descriptor, and nothing else. */
  lemma RebuildByIdentity(a: Memory, b: Memory, v: MemoryVersion)
    requires SameIdentity(a, b)
    ensures Rebuild(b, v) == if Rebuild(a, v).Ok? then Ok(Rebuild(a, v).value.(embedding := b.embedding))
        else Rebuild(a, v)
    ensures Rebuild(a, v).Ok? ==> Rebuild(a, v).value.embedding == a.embedding
  {
    assert Past(b, v) == Past(a, v).(embedding := b.embedding);
  }

  /** A kept version is what `get_version` returns, up to the embedding descriptor. */
  lemma KeptAnswers(s: Store, m: Memory, owner: string, tenant: Option<string>)
    requires Aligned(s) && Kept(s, m) && Visible(m, owner, tenant)
    ensures GetVersion(s, owner, m.id, m.version, tenant) == Ok(m.(embedding := s.memories[m.id].embedding))
  {
    hide Rebuild;
    if s.memories[m.id].version != m.version {
      FindInComplete(s.history[m.id], 0, m.version);
    }
  }

  /** A command whose row points at a version is answered by looking that version up. */
  lemma PointedAnswers(s: Store, env: Env, c: Command, m: Memory)
    requires Versioned(c) && Permitted(c) && Pointed(s, c, m)
    ensures
      var found := GetVersion(s, OwnerOf(c), m.id, m.version, TenantOf(c));
      Decide(s, env, c) == if found.Ok? then Ok(Outcome(Nothing, Returned(found.value))) else Err(found.error)
  {
    hide Evolve, Embed, RelatedExists, GetVersion;
  }

  // ---------------------------------------------------------------- remembering lasts

  lemma EffectKeeps(s: Store, e: Effect, m: Memory)
    requires Inv(s) && Enabled(s, e) && Kept(s, m) && m.id in Commit(s, e).memories
    ensures Kept(Commit(s, e), m)
  {
    hide Rebuild, RelationsSound, KeysHeld, DeletionTerminal, LedgerSettled, Evidenced, LinkOpen;
    if e.Advance? && e.memory.id == m.id {
      RebuildByIdentity(s.memories[m.id], e.memory, s.history[m.id][m.version - 1]);
    } else {
      OthersUntouched(s, e, m.id);
    }
  }

  lemma StepRemembers(s: Store, step: Step, c: Command, m: Memory)
    requires Inv(s) && LegalStep(s, step) && Versioned(c) && Remembers(s, c, m)
    requires m.id in Apply(s, step.env, step.command).memories
    ensures Remembers(Apply(s, step.env, step.command), c, m)
  {
    hide Decide, Inv, LegalStep, Enabled, Kept, OperationOf, DigestOf;
    var d := Decide(s, step.env, step.command);
    if d.Ok? {
      AlignedOf(s);
      DecisionEnabled(s, step);
      CommitLedger(s, d.value.effect);
      EffectKeeps(s, d.value.effect, m);
    }
  }

  /** `id` is never forgotten along the run. */
  ghost predicate StaysLive(s: Store, steps: seq<Step>, id: Id) {
    forall i :: 0 <= i <= |steps| ==> id in Run(s, steps[..i]).memories
  }

  lemma StaysLivePrefix(s: Store, steps: seq<Step>, id: Id)
    requires StaysLive(s, steps, id) && steps != []
    ensures StaysLive(s, steps[..|steps| - 1], id) && id in Run(s, steps).memories
  {
    hide Run;
    assert steps[..|steps|] == steps;
    var rest := steps[..|steps| - 1];
    forall i | 0 <= i <= |rest| ensures id in Run(s, rest[..i]).memories {
      assert rest[..i] == steps[..i];
    }
  }

  lemma {:induction false} RunRemembers(s: Store, steps: seq<Step>, c: Command, m: Memory)
    requires Inv(s) && LegalRun(s, steps) && Versioned(c) && Remembers(s, c, m) && StaysLive(s, steps, m.id)
    ensures Remembers(Run(s, steps), c, m)
    decreases |steps|
  {
    if steps != [] {
      hide Inv, LegalRun, Apply, Remembers, StaysLive;
      var rest := steps[..|steps| - 1];
      LegalPrefix(s, steps);
      StaysLivePrefix(s, steps, m.id);
      RunRemembers(s, rest, c, m);
      ReachableInv(s, rest);
      StepRemembers(Run(s, rest), steps[|steps| - 1], c, m);
    }
  }

  // ---------------------------------------------------------------- the first answer

  /** What was just written is kept. */
  lemma AdvanceIsKept(s: Store, e: Effect)
    requires Inv(s) && Enabled(s, e) && Sound(e) && e.Advance?
    ensures Kept(Commit(s, e), e.memory)
  {
    hide Rebuild, ValidMemory, RelationsSound, KeysHeld, DeletionTerminal, LedgerSettled, Evidenced, LinkOpen;
    RebuildRestores(e.memory, e.reason, e.memory);
  }

  /** The current value is kept exactly when its last snapshot rebuilds it. */
  lemma CurrentIsKept(s: Store, id: Id)
    requires Aligned(s) && id in s.memories
    ensures Kept(s, s.memories[id]) <==> Restores(s, id)
  {
    hide Rebuild;
  }

  /** What a replay returned is kept, too: an earlier version always, the current one exactly when
      its last snapshot rebuilds it. */
  lemma ReplayIsKept(s: Store, owner: string, id: Id, version: int, tenant: Option<string>)
    requires Aligned(s) && GetVersion(s, owner, id, version, tenant).Ok?
    ensures
      var m := GetVersion(s, owner, id, version, tenant).value;
      && m.id == id && m.version == version && id in s.memories && Visible(m, owner, tenant)
      && (Kept(s, m) <==> s.memories[id].version != version || Restores(s, id))
  {
    var current := s.memories[id];
    if current.version == version {
      CurrentIsKept(s, id);
    } else {
      FoundInComplete(s.history[id], version);
      assert Construct(Past(current, s.history[id][version - 1])).Ok?;
    }
  }

  lemma {:induction false} FoundIndex(h: seq<MemoryVersion>, from: nat, version: int)
    requires forall i :: 0 <= i < |h| ==> h[i].version == from + i + 1
    requires FindVersion(h, version).Some?
    ensures from + 1 <= version <= from + |h|
    decreases |h|
  {
    if h[0].version != version {
      FoundIndex(h[1..], from + 1, version);
    }
  }

  lemma FoundInComplete(h: seq<MemoryVersion>, version: int)
    requires forall i :: 0 <= i < |h| ==> h[i].version == i + 1
    requires FindVersion(h, version).Some?
    ensures 1 <= version <= |h| && FindVersion(h, version) == Some(h[version - 1])
  {
    FoundIndex(h, 0, version);
    FindInComplete(h, 0, version);
  }

  /** A command that claims its key for the first time either advances its subject or, for a pin
      that changes nothing, settles on the current version. */
  lemma FirstAnswer(s: Store, env: Env, c: Command, m: Memory)
    requires Aligned(s) && Versioned(c) && OperationOf(c).value !in s.operations
    requires Decide(s, env, c).Ok? && Decide(s, env, c).value.reply == Returned(m)
    ensures
      var e := Decide(s, env, c).value.effect;
      && Permitted(c) && SubjectOf(c) in s.memories && Visible(s.memories[SubjectOf(c)], OwnerOf(c), TenantOf(c))
      && Posted(e).Some? && Posted(e).value.key == OperationOf(c).value
      && Posted(e).value.row.fingerprint == DigestOf(c) && Posted(e).value.row.status == Completed
      && Posted(e).value.row.memoryId == Some(m.id) && Posted(e).value.row.resultVersion == Some(m.version)
      && m.id == SubjectOf(c)
      && ((e.Advance? && e.memory == m && NextVersion(s.memories[m.id], m)) || (e.Settle? && s.memories[m.id] == m))
  {
    match c
    case Confirm(w) => ConfirmFirst(s, env, w);
    case Pin(w) => PinFirst(s, env, w);
    case Update(w) => UpdateFirst(s, env, w);
  }

  lemma ConfirmFirst(s: Store, env: Env, c: ConfirmCommand)
    requires Aligned(s) && DecideConfirm(s, env, c).Ok? && OperationKey(c.owner, ConfirmOp, c.key) !in s.operations
    ensures
      var e := DecideConfirm(s, env, c).value.effect;
      && e.Advance? && c.memoryId in s.memories && NextVersion(s.memories[c.memoryId], e.memory)
      && Visible(s.memories[c.memoryId], c.owner, Some(c.tenant))
      && e.settled == Some(Entry(OperationKey(c.owner, ConfirmOp, c.key),
                                 Row(ConfirmFingerprint(c), e.memory.id, Some(e.memory.version), "confirmed")))
      && DecideConfirm(s, env, c).value.reply == Returned(e.memory)
  {
    hide Embed, GetVersion, Evolve;
    EvolveIsNextVersion(s.memories[c.memoryId], env.now, ConfirmChanges(c, env), c.reason, None);
  }

  lemma PinFirst(s: Store, env: Env, c: PinCommand)
    requires Aligned(s) && DecidePin(s, env, c).Ok? && OperationKey(c.owner, PinOp, c.key) !in s.operations
    ensures
      var e := DecidePin(s, env, c).value.effect;
      var m := DecidePin(s, env, c).value.reply.memory;
      && c.memoryId in s.memories && Visible(s.memories[c.memoryId], c.owner, Some(c.tenant))
      && DecidePin(s, env, c).value.reply == Returned(m) && m.id == c.memoryId
      && ((e.Advance? && e.memory == m && NextVersion(s.memories[c.memoryId], m))
           || (e.Settle? && s.memories[c.memoryId] == m))
      && Posted(e) == Some(Entry(OperationKey(c.owner, PinOp, c.key),
                                 Row(PinFingerprint(c), m.id, Some(m.version), PinLabel(c))))
  {
    hide Embed, GetVersion, Evolve;
    var current := s.memories[c.memoryId];
    if current.state != PinTarget(c) {
      var changes := Changes(None, None, None, None, Some(PinTarget(c)), None, None, None, None);
      EvolveIsNextVersion(current, env.now, changes, if c.pinned then "pinned" else "unpinned", None);
    }
  }

  lemma UpdateFirst(s: Store, env: Env, c: UpdateCommand)
    requires Aligned(s) && DecideUpdate(s, env, c).Ok?
    requires LedgerKey(c.owner, UpdateOp, c.key).Some? && LedgerKey(c.owner, UpdateOp, c.key).value !in s.operations
    ensures
      var e := DecideUpdate(s, env, c).value.effect;
      && e.Advance? && c.memoryId in s.memories && NextVersion(s.memories[c.memoryId], e.memory)
      && Visible(s.memories[c.memoryId], c.owner, None)
      && e.settled == Some(Entry(LedgerKey(c.owner, UpdateOp, c.key).value,
                                 Row(UpdateFingerprint(c), e.memory.id, Some(e.memory.version), "updated")))
      && DecideUpdate(s, env, c).value.reply == Returned(e.memory)
  {
    hide Embed, GetVersion, Evolve, RelatedExists;
    EvolveIsNextVersion(s.memories[c.memoryId], env.now, UpdateChanges(c, env), c.reason, Related(c));
  }

  /** A replay returns the version its row points at and commits nothing. */
  lemma RepeatedAnswer(s: Store, env: Env, c: Command, m: Memory)
    requires Versioned(c) && OperationOf(c).value in s.operations
    requires Decide(s, env, c).Ok? && Decide(s, env, c).value.reply == Returned(m)
    ensures
      var row := s.operations[OperationOf(c).value];
      && Permitted(c) && row.fingerprint == DigestOf(c) && row.status == Completed
      && GetVersion(s, OwnerOf(c), OrElse(row.memoryId, SubjectOf(c)), OrElse(row.resultVersion, ExpectedOf(c)),
           TenantOf(c)) == Ok(m)
      && Decide(s, env, c).value.effect == Nothing
  {
    hide GetVersion, Evolve, Embed, RelatedExists;
  }

  lemma VersionHasId(s: Store, owner: string, id: Id, version: int, tenant: Option<string>)
    requires Aligned(s) && GetVersion(s, owner, id, version, tenant).Ok?
    ensures id in s.memories && GetVersion(s, owner, id, version, tenant).value.id == id
    ensures Visible(GetVersion(s, owner, id, version, tenant).value, owner, tenant)
    ensures s.memories[id].version == version ==> GetVersion(s, owner, id, version, tenant).value == s.memories[id]
    ensures GetVersion(s, owner, id, version, tenant).value.version == version
  {
    if s.memories[id].version != version {
      FoundInComplete(s.history[id], version);
    }
  }

  lemma FirstRemembers(s: Store, step: Step, m: Memory)
    requires Inv(s) && LegalStep(s, step) && Versioned(step.command) && OperationOf(step.command).value !in s.operations
    requires Decide(s, step.env, step.command).Ok? && Decide(s, step.env, step.command).value.reply == Returned(m)
    ensures
      var t := Apply(s, step.env, step.command);
      && Permitted(step.command) && Pointed(t, step.command, m)
           && Visible(m, OwnerOf(step.command), TenantOf(step.command))
      && (Kept(t, m) <==> AnsweredCurrent(s, step, m) ==> Restores(s, m.id))
  {
    hide Decide, Enabled, Sound, OperationOf, DigestOf, LegalStep, Kept, Restores, Inv, Permitted;
    AlignedOf(s);
    var c := step.command;
    var e := Decide(s, step.env, c).value.effect;
    FirstAnswer(s, step.env, c, m);
    if e.Advance? {
      DecisionEnabled(s, step);
      DecisionSound(s, step.env, c);
      AdvanceIsKept(s, e);
    } else {
      CurrentIsKept(s, m.id);
      SettleChangesLedger(s, e, m);
    }
  }

  lemma SettleChangesLedger(s: Store, e: Effect, m: Memory)
    requires e.Settle?
    ensures Kept(Commit(s, e), m) <==> Kept(s, m)
  {
    hide Rebuild;
  }

  lemma RepeatRemembers(s: Store, step: Step, m: Memory)
    requires Inv(s) && Versioned(step.command) && OperationOf(step.command).value in s.operations
    requires Decide(s, step.env, step.command).Ok? && Decide(s, step.env, step.command).value.reply == Returned(m)
    ensures
      var t := Apply(s, step.env, step.command);
      && t == s && Permitted(step.command) && Pointed(t, step.command, m)
      && Visible(m, OwnerOf(step.command), TenantOf(step.command))
      && (Kept(t, m) <==> AnsweredCurrent(s, step, m) ==> Restores(s, m.id))
  {
    hide Decide, DigestOf, Kept, Restores, Permitted, GetVersion, Commit, Inv;
    var c := step.command;
    RepeatedAnswer(s, step.env, c, m);
    var row := s.operations[OperationOf(c).value];
    AlignedOf(s);
    NothingChanges(s);
    ReplayIsKept(s, OwnerOf(c), OrElse(row.memoryId, SubjectOf(c)), OrElse(row.resultVersion, ExpectedOf(c)),
        TenantOf(c));
  }

  /** Whatever a versioned command returns, its row points at afterwards, and the store keeps it: an
      advancing command always, one that answered with the current value exactly when the last
      snapshot rebuilds that. */
  lemma ReturnRemembers(s: Store, step: Step, m: Memory)
    requires Inv(s) && LegalStep(s, step) && Versioned(step.command)
    requires Decide(s, step.env, step.command).Ok? && Decide(s, step.env, step.command).value.reply == Returned(m)
    ensures Permitted(step.command) && Pointed(Apply(s, step.env, step.command), step.command, m)
    ensures Remembers(Apply(s, step.env, step.command), step.command, m) <==>
        AnsweredCurrent(s, step, m) ==> Restores(s, m.id)
  {
    hide Decide, LegalStep, Restores, Permitted, Pointed, Kept, Inv, AnsweredCurrent, Apply;
    if OperationOf(step.command).value in s.operations {
      RepeatRemembers(s, step, m);
    } else {
      FirstRemembers(s, step, m);
    }
  }

  lemma NothingChanges(s: Store)
    ensures Commit(s, Nothing) == s
  {
  }

  // ---------------------------------------------------------------- the theorem

  /** Replay stability. A keyed update, confirm or pin has returned `m`. After any later run that
      does not forget that memory, the same command returns `m` again, all fields but the embedding
      descriptor, and leaves the store as it is. Only an answer that wrote no version, given with
      the current value, asks something of the history: that the last snapshot rebuilds that value. */
  lemma ReplayStable(s: Store, first: Step, later: seq<Step>, env: Env, m: Memory)
    requires Inv(s) && LegalStep(s, first) && Versioned(first.command)
    requires Decide(s, first.env, first.command).Ok? && Decide(s, first.env, first.command).value.reply == Returned(m)
    requires AnsweredCurrent(s, first, m) ==> Restores(s, m.id)
    requires LegalRun(Apply(s, first.env, first.command), later)
    requires StaysLive(Apply(s, first.env, first.command), later, m.id)
    ensures
      var u := Run(Apply(s, first.env, first.command), later);
      && m.id in u.memories
      && Decide(u, env, first.command) == Ok(Outcome(Nothing, Returned(m.(embedding := u.memories[m.id].embedding))))
      && Apply(u, env, first.command) == u
  {
    hide Decide, Inv, LegalStep, LegalRun, Pointed, Kept, Permitted, Restores, StaysLive, Run, Commit,
        AnsweredCurrent, GetVersion;
    var t := Apply(s, first.env, first.command);
    ReturnRemembers(s, first, m);
    StepKeepsInv(s, first);
    RunRemembers(t, later, first.command, m);
    ReachableInv(t, later);
    var u := Run(t, later);
    AlignedOf(u);
    NothingChanges(u);
    KeptIsLive(u, m);
    KeptAnswers(u, m, OwnerOf(first.command), TenantOf(first.command));
    PointedAnswers(u, env, first.command, m);
  }

  lemma KeptIsLive(s: Store, m: Memory)
    requires Kept(s, m)
    ensures m.id in s.memories
  {
  }

  lemma {:induction false} RunKeeps(s: Store, steps: seq<Step>, m: Memory)
    requires Inv(s) && LegalRun(s, steps) && Kept(s, m) && StaysLive(s, steps, m.id)
    ensures Kept(Run(s, steps), m)
    decreases |steps|
  {
    if steps != [] {
      hide Inv, LegalRun, LegalStep, Decide, Kept, StaysLive, Enabled, Commit;
      var rest, last := steps[..|steps| - 1], steps[|steps| - 1];
      LegalPrefix(s, steps);
      StaysLivePrefix(s, steps, m.id);
      RunKeeps(s, rest, m);
      ReachableInv(s, rest);
      var mid := Run(s, rest);
      if Decide(mid, last.env, last.command).Ok? {
        DecisionEnabled(mid, last);
        EffectKeeps(mid, Decide(mid, last.env, last.command).value.effect, m);
      }
    }
  }

  /** What an update under a new key, or under none, has returned can be looked up as that version after
      any later run that does not forget the memory. */
  lemma UpdateShownLater(s: Store, env: Env, c: UpdateCommand, later: seq<Step>, m: Memory)
    requires Inv(s) && LegalStep(s, Step(env, Update(c))) && !ClaimedBefore(s, c.owner, UpdateOp, c.key)
    requires Decide(s, env, Update(c)).Ok? && Decide(s, env, Update(c)).value.reply == Returned(m)
    requires LegalRun(Apply(s, env, Update(c)), later) && StaysLive(Apply(s, env, Update(c)), later, m.id)
    ensures
      var u := Run(Apply(s, env, Update(c)), later);
      && m.id in u.memories && Get(Apply(s, env, Update(c)), c.owner, c.memoryId, None) == Some(m)
      && GetVersion(u, c.owner, c.memoryId, m.version, None) == Ok(m.(embedding := u.memories[m.id].embedding))
  {
    hide Decide, DecideUpdate, Inv, LegalStep, LegalRun, Kept, StaysLive, Run, Apply, Commit, Enabled, Sound,
        GetVersion,
      ClaimedBefore, UpdatedFields, UpdatedTables;
    var t := Apply(s, env, Update(c));
    AlignedOf(s);
    Dispatch(s, env, Update(c));
    UpdateTables(s, env, c);
    UpdateReturns(s, env, c, m);
    var e := DecideUpdate(s, env, c).value.effect;
    DecisionEnabled(s, Step(env, Update(c)));
    DecisionSound(s, env, Update(c));
    AdvanceIsKept(s, e);
    StepKeepsInv(s, Step(env, Update(c)));
    RunKeeps(t, later, m);
    ReachableInv(t, later);
    var u := Run(t, later);
    AlignedOf(u);
    KeptIsLive(u, m);
    KeptAnswers(u, m, c.owner, None);
  }

  lemma UpdateReturns(s: Store, env: Env, c: UpdateCommand, m: Memory)
    requires Aligned(s) && !ClaimedBefore(s, c.owner, UpdateOp, c.key)
    requires Decide(s, env, Update(c)).Ok? && Decide(s, env, Update(c)).value.reply == Returned(m)
    ensures
      var e := DecideUpdate(s, env, c).value.effect;
      && e.Advance? && e.memory == m && m.id == c.memoryId && m.owner == c.owner
      && Get(Apply(s, env, Update(c)), c.owner, c.memoryId, None) == Some(m)
  {
    hide Evolve, ValidOwner, Embed, Blank, DecideUpdate, ClaimedBefore;
    Dispatch(s, env, Update(c));
    UpdateDecision(s, env, c);
    EvolveIsNextVersion(s.memories[c.memoryId], env.now, UpdateChanges(c, env), c.reason, Related(c));
  }

  /** A memory whose history mirrors it, as every written or captured one's does, meets it. */
  lemma FaithfulRestores(s: Store, id: Id)
    requires Aligned(s) && Faithful(s, id)
    ensures Restores(s, id)
  {
    var m, h := s.memories[id], s.history[id];
    assert ValidMemory(Past(m, h[|h| - 1]));
    assert Past(m, h[|h| - 1]) == m;
  }

  /** That condition is exact: once a later step advances the memory, the command returns the same
      answer again if and only if the last snapshot rebuilt the value it had returned. */
  lemma ReplayNeedsRestoring(s: Store, first: Step, next: Step, env: Env, m: Memory)
    requires Inv(s) && LegalStep(s, first) && Versioned(first.command)
    requires Decide(s, first.env, first.command).Ok? && Decide(s, first.env, first.command).value.reply == Returned(m)
    requires AnsweredCurrent(s, first, m)
    requires
      var t := Apply(s, first.env, first.command);
      && LegalStep(t, next) && Decide(t, next.env, next.command).Ok?
      && Decide(t, next.env, next.command).value.effect.Advance?
      && Decide(t, next.env, next.command).value.effect.memory.id == m.id
    ensures
      var u := Apply(Apply(s, first.env, first.command), next.env, next.command);
      && m.id in u.memories
      && (Decide(u, env, first.command) == Ok(Outcome(Nothing, Returned(m.(embedding := u.memories[m.id].embedding))))
          <==> Restores(s, m.id))
  {
    hide Decide, Inv, LegalStep, Pointed, Kept, Permitted, Restores, Run, GetVersion, Enabled, Commit, AnsweredCurrent;
    var c := first.command;
    var t := Apply(s, first.env, c);
    ReturnRemembers(s, first, m);
    StepKeepsInv(s, first);
    DecisionEnabled(t, next);
    var e := Decide(t, next.env, next.command).value.effect;
    AlignedOf(t);
    CurrentAnswer(s, first, m);
    AdvanceShowsSnapshot(t, e, m, OwnerOf(c), TenantOf(c));
    CommitLedger(t, e);
    PointedLasts(t, Commit(t, e), c, m);
    PointedAnswers(Commit(t, e), env, c, m);
  }

  /** An answer with the current value is that value, and changes neither it nor its history. */
  lemma CurrentAnswer(s: Store, step: Step, m: Memory)
    requires Inv(s) && LegalStep(s, step) && Versioned(step.command)
    requires Decide(s, step.env, step.command).Ok? && Decide(s, step.env, step.command).value.reply == Returned(m)
    requires AnsweredCurrent(s, step, m)
    ensures
      var t := Apply(s, step.env, step.command);
      && m.id in t.memories && t.memories[m.id] == m && Visible(m, OwnerOf(step.command), TenantOf(step.command))
      && (Restores(t, m.id) <==> Restores(s, m.id))
  {
    hide Decide, DigestOf, Permitted, Inv, Rebuild;
    var c := step.command;
    AlignedOf(s);
    if OperationOf(c).value in s.operations {
      RepeatedAnswer(s, step.env, c, m);
      var row := s.operations[OperationOf(c).value];
      VersionHasId(s, OwnerOf(c), OrElse(row.memoryId, SubjectOf(c)), OrElse(row.resultVersion, ExpectedOf(c)),
          TenantOf(c));
    } else {
      FirstAnswer(s, step.env, c, m);
    }
  }

  /** After the memory has moved on, looking up the version it was at gives its value back exactly
      when the last snapshot rebuilt it. */
  lemma AdvanceShowsSnapshot(s: Store, e: Effect, m: Memory, owner: string, tenant: Option<string>)
    requires Aligned(s) && Enabled(s, e) && e.Advance? && e.memory.id == m.id
    requires m.id in s.memories && s.memories[m.id] == m && Visible(m, owner, tenant)
    ensures
      var u := Commit(s, e);
      && m.id in u.memories
      && (GetVersion(u, owner, m.id, m.version, tenant) == Ok(m.(embedding := u.memories[m.id].embedding)) <==>
           Restores(s, m.id))
  {
    hide Rebuild, Evidenced, LinkOpen, EntryOpen, Attach, Post;
    var h := s.history[m.id];
    if h != [] {
      RebuildByIdentity(m, e.memory, h[|h| - 1]);
      FindInComplete(h + [Snapshot(e.memory, e.reason)], 0, m.version);
    } else {
      var g := h + [Snapshot(e.memory, e.reason)];
      assert g[1..] == [];
      assert FindVersion(g, m.version).None?;
      assert Commit(s, e).history[m.id] == g;
    }
  }

  lemma PointedLasts(s: Store, t: Store, c: Command, m: Memory)
    requires Versioned(c) && Pointed(s, c, m)
    requires forall k :: k in s.operations ==> k in t.operations && t.operations[k] == s.operations[k]
    ensures Pointed(t, c, m)
  {
  }

  /** Once the memory is gone the replay finds nothing, and still changes nothing. */
  lemma ReplayAfterForget(s: Store, env: Env, c: Command)
    requires Versioned(c) && Permitted(c) && OperationOf(c).value in s.operations
    requires
      var row := s.operations[OperationOf(c).value];
      row.fingerprint == DigestOf(c) && row.status == Completed && OrElse(row.memoryId, SubjectOf(c)) !in s.memories
    ensures Decide(s, env, c) == Err(NotFound) && Apply(s, env, c) == s
  {
    hide Rebuild, Evolve, Embed, RelatedExists;
  }
}
