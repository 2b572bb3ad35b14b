/** Histories are paths in the lifecycle graph, and superseded or contradicted memories carry
    the relation that explains them. */
module Lifecycle {
  import opened Domain
  import opened MemoryStore
  import opened StoreInvariants

  // ---------------------------------------------------------------- histories

  /** The last snapshot shows the memory as it is. */
  ghost predicate Mirrors(m: Memory, h: seq<MemoryVersion>) {
    |h| > 0 && h[|h| - 1] == Snapshot(m, h[|h| - 1].reason)
  }

  /** Every snapshot can be turned back into a memory value. */
  ghost predicate Replayable(m: Memory, h: seq<MemoryVersion>) {
    forall i :: 0 <= i < |h| ==> ValidMemory(Past(m, h[i])) && h[i].consent == m.consent
  }

  /** States move only along allowed edges and start active or as a candidate. */
  ghost predicate LifecyclePath(h: seq<MemoryVersion>) {
    && |h| > 0 && h[0].state in {Active, Candidate}
    && forall i :: 0 < i < |h| ==> h[i - 1].state == h[i].state || Edge(h[i - 1].state, h[i].state)
  }

  ghost predicate Faithful(s: Store, id: Id) {
    id in s.memories && id in s.history && Mirrors(s.memories[id], s.history[id])
        && Replayable(s.memories[id], s.history[id])
  }

  ghost predicate Native(s: Store, id: Id) {
    Faithful(s, id) && LifecyclePath(s.history[id])
  }

  lemma {:induction false} SupersededIsAbsorbing(h: seq<MemoryVersion>, i: nat, j: nat)
    requires LifecyclePath(h) && i <= j < |h| && h[i].state == Superseded
    ensures h[j].state == Superseded
  {
    if i < j {
      SupersededIsAbsorbing(h, i, j - 1);
    }
  }

  lemma {:induction false} CandidateIsPrefix(h: seq<MemoryVersion>, i: nat, j: nat)
    requires LifecyclePath(h) && i <= j < |h| && h[j].state == Candidate
    ensures h[i].state == Candidate
  {
    if i < j {
      CandidateIsPrefix(h, i, j - 1);
    }
  }

  /** The first state after candidate is confirmed or pinned. */
  lemma CandidateIsDecided(h: seq<MemoryVersion>, i: nat)
    requires LifecyclePath(h) && i < |h| && h[0].state == Candidate && h[i].state != Candidate
    ensures exists k :: 0 < k <= i && h[k].state in {Confirmed, Pinned}
                        && forall j :: 0 <= j < k ==> h[j].state == Candidate
  {
    var k := 0;
    while h[k].state == Candidate
      invariant k <= i
      invariant forall j :: 0 <= j < k ==> h[j].state == Candidate
      decreases i - k
    {
      k := k + 1;
    }
    assert h[k - 1].state == Candidate;
  }

  // ---------------------------------------------------------------- effects carry valid values

  ghost predicate Sound(e: Effect) {
    e.Create? || e.Advance? ==> ValidMemory(e.memory)
  }

  lemma WriteSound(s: Store, env: Env, c: WriteCommand)
    requires DecideWrite(s, env, c).Ok?
    ensures Sound(DecideWrite(s, env, c).value.effect)
  {
    hide ValidMemory, Construct, Embed, Bound;
    if DecideWrite(s, env, c).value.effect.Create? {
      ConstructedIsValid(Draft(c, env));
    }
  }

  lemma CaptureSound(s: Store, env: Env, c: CaptureCommand)
    requires DecideCapture(s, env, c).Ok?
    ensures Sound(DecideCapture(s, env, c).value.effect)
  {
    hide ValidMemory, Construct, Embed, Bound, CaptureAllowed;
    if DecideCapture(s, env, c).value.effect.Create? {
      ConstructedIsValid(CaptureDraft(c, env));
    }
  }

  lemma ConfirmSound(s: Store, env: Env, c: ConfirmCommand)
    requires DecideConfirm(s, env, c).Ok?
    ensures Sound(DecideConfirm(s, env, c).value.effect)
  {
    hide ValidMemory, Evolve, Embed, GetVersion, MutationAllowed;
    if DecideConfirm(s, env, c).value.effect.Advance? {
      EvolveIsValid(s.memories[c.memoryId], env.now, ConfirmChanges(c, env), c.reason, None);
    }
  }

  lemma PinSound(s: Store, env: Env, c: PinCommand)
    requires DecidePin(s, env, c).Ok?
    ensures Sound(DecidePin(s, env, c).value.effect)
  {
    hide ValidMemory, Evolve, Embed, GetVersion, MutationAllowed;
    if DecidePin(s, env, c).value.effect.Advance? {
      var changes := Changes(None, None, None, None, Some(PinTarget(c)), None, None, None, None);
      EvolveIsValid(s.memories[c.memoryId], env.now, changes, if c.pinned then "pinned" else "unpinned", None);
    }
  }

  lemma UpdateSound(s: Store, env: Env, c: UpdateCommand)
    requires DecideUpdate(s, env, c).Ok?
    ensures Sound(DecideUpdate(s, env, c).value.effect)
  {
    hide ValidMemory, Evolve, Embed, GetVersion, RelatedExists;
    if DecideUpdate(s, env, c).value.effect.Advance? {
      EvolveIsValid(s.memories[c.memoryId], env.now, UpdateChanges(c, env), c.reason, Related(c));
    }
  }

  lemma DecisionSound(s: Store, env: Env, c: Command)
    requires Decide(s, env, c).Ok?
    ensures Sound(Decide(s, env, c).value.effect)
  {
    hide ValidMemory, DecideWrite, DecideCapture, DecideConfirm, DecidePin, DecideUpdate, Prepare, Screen, Admit,
      ValidRecord, EndpointsExist, Bury, Claim;
    match c
    case Write(w) => WriteSound(s, env, w);
    case Capture(w) => CaptureSound(s, env, w);
    case Confirm(w) => ConfirmSound(s, env, w);
    case Pin(w) => PinSound(s, env, w);
    case Update(w) => UpdateSound(s, env, w);
    case _ =>
  }

  // ---------------------------------------------------------------- every effect keeps nativeness

  lemma PastStaysValid(a: Memory, b: Memory, v: MemoryVersion)
    requires SameIdentity(a, b) && ValidMemory(Past(a, v))
    ensures ValidMemory(Past(b, v))
  {
    assert Past(b, v) == Past(a, v).(embedding := b.embedding);
  }

  lemma PastOfOwnSnapshot(m: Memory, reason: string)
    requires ValidMemory(m)
    ensures Past(m, Snapshot(m, reason)) == m
  {
  }

  lemma CreateIsNative(s: Store, m: Memory, f: Fingerprint, v: Vector)
    requires ValidMemory(m) && m.state in {Active, Candidate}
    ensures Native(Commit(s, Create(m, f, v)), m.id)
  {
    PastOfOwnSnapshot(m, "created");
  }

  lemma AdvanceKeepsReplayable(before: Memory, after: Memory, h: seq<MemoryVersion>, reason: string)
    requires Replayable(before, h) && SameIdentity(before, after) && ValidMemory(after)
    ensures Replayable(after, h + [Snapshot(after, reason)])
  {
    hide ValidMemory;
    var g := h + [Snapshot(after, reason)];
    PastOfOwnSnapshot(after, reason);
    forall i | 0 <= i < |g| ensures ValidMemory(Past(after, g[i])) && g[i].consent == after.consent {
      if i < |h| {
        PastStaysValid(before, after, h[i]);
      }
    }
  }

  lemma AdvanceKeepsFaithful(s: Store, e: Effect)
    requires Aligned(s) && e.Advance? && Enabled(s, e) && Sound(e) && Faithful(s, e.memory.id)
    ensures Faithful(Commit(s, e), e.memory.id)
  {
    hide ValidMemory, Replayable;
    var id := e.memory.id;
    AdvanceKeepsReplayable(s.memories[id], e.memory, s.history[id], e.reason);
  }

  lemma AdvanceKeepsPath(s: Store, e: Effect)
    requires Aligned(s) && e.Advance? && Enabled(s, e) && Native(s, e.memory.id)
    ensures LifecyclePath(Commit(s, e).history[e.memory.id])
  {
    hide ValidMemory, Replayable;
  }

  /** The memory and its history are what they were. */
  ghost predicate Untouched(s: Store, t: Store, id: Id) {
    && id in s.memories && id in t.memories && t.memories[id] == s.memories[id]
    && id in s.history && id in t.history && t.history[id] == s.history[id]
  }

  /** An effect leaves every other memory alone; only erasing removes one. */
  lemma OthersUntouched(s: Store, e: Effect, id: Id)
    requires Aligned(s) && Enabled(s, e) && id in s.memories
    requires e.Advance? ==> e.memory.id != id
    requires e.Erase? ==> e.id != id
    ensures Untouched(s, Commit(s, e), id)
  {
    if e.Load? {
      LoadedFrame(s, e.records);
      LoadedContent(s, e.records);
    }
  }

  /** Faithfulness and nativeness survive every effect under which the memory stays live. */
  lemma EffectKeepsNative(s: Store, e: Effect, id: Id)
    requires Inv(s) && Enabled(s, e) && Sound(e) && id in s.memories && id in Commit(s, e).memories
    ensures Faithful(s, id) ==> Faithful(Commit(s, e), id)
    ensures Native(s, id) ==> Native(Commit(s, e), id)
  {
    hide ValidMemory, Replayable, Mirrors, LifecyclePath;
    if e.Advance? && e.memory.id == id {
      if Faithful(s, id) {
        AdvanceKeepsFaithful(s, e);
      }
      if Native(s, id) {
        AdvanceKeepsPath(s, e);
      }
    } else {
      assert e.Erase? ==> e.id != id;
      OthersUntouched(s, e, id);
    }
  }

  /** A memory that appears without being loaded was created by this effect. */
  lemma NewIsNative(s: Store, e: Effect, id: Id)
    requires Inv(s) && Enabled(s, e) && Sound(e) && id !in s.memories && id in Commit(s, e).memories
    requires !e.Load?
    ensures e.Create? && e.memory.id == id && Native(Commit(s, e), id)
  {
    hide ValidMemory, Native;
    match e
    case Create(m, f, v) => CreateIsNative(s, m, f, v);
    case Nothing =>
    case Settle(_) =>
    case Advance(_, _, _, _, _) =>
    case Erase(_, _) =>
    case Link(_) =>
  }

  // ---------------------------------------------------------------- over runs

  /** This step is an import that brings `id` into the store. */
  ghost predicate Loads(s: Store, step: Step, id: Id) {
    step.command.Import? && id !in s.memories && id in Apply(s, step.env, step.command).memories
  }

  /** Some import of the run brought `id` into the store. Merely offering a memory that is there
      already does not count. */
  ghost predicate LoadedIn(steps: seq<Step>, id: Id) {
    exists i :: 0 <= i < |steps| && Loads(Run(EMPTY, steps[..i]), steps[i], id)
  }

  lemma LoadedPrefix(steps: seq<Step>, id: Id)
    requires steps != [] && !LoadedIn(steps, id)
    ensures !LoadedIn(steps[..|steps| - 1], id)
    ensures !Loads(Run(EMPTY, steps[..|steps| - 1]), steps[|steps| - 1], id)
  {
    hide Loads, Run;
    var rest, n := steps[..|steps| - 1], |steps| - 1;
    assert forall i :: 0 <= i < n ==> rest[..i] == steps[..i] && rest[i] == steps[i];
    assert steps[..n] == rest && !Loads(Run(EMPTY, steps[..n]), steps[n], id);
  }

  /** One step: a live memory is native after it if it was native before, or did not exist before
      and was not loaded from a package. */
  lemma StepKeepsNative(s: Store, step: Step, id: Id)
    requires Inv(s) && LegalStep(s, step)
    requires id in s.memories ==> Native(s, id)
    requires !Loads(s, step, id)
    ensures id in Apply(s, step.env, step.command).memories ==> Native(Apply(s, step.env, step.command), id)
  {
    var d := Decide(s, step.env, step.command);
    if d.Ok? && id in Commit(s, d.value.effect).memories {
      var e := d.value.effect;
      DecisionEnabled(s, step);
      DecisionSound(s, step.env, step.command);
      if !step.command.Import? {
        OnlyImportsLoad(s, step.env, step.command);
      }
      hide Decide, Native, Enabled, Sound, Inv, LegalStep;
      if id in s.memories {
        EffectKeepsNative(s, e, id);
      } else {
        NewIsNative(s, e, id);
      }
    }
  }

  /** In every reachable store, every memory that was written or captured, rather than loaded from
      a package, mirrors its last snapshot and its history is a path in the lifecycle graph. */
  lemma {:induction false} ReachableNative(steps: seq<Step>, id: Id)
    requires LegalRun(EMPTY, steps) && id in Run(EMPTY, steps).memories && !LoadedIn(steps, id)
    ensures Native(Run(EMPTY, steps), id)
    decreases |steps|
  {
    if steps != [] {
      var rest := steps[..|steps| - 1];
      hide Native, Apply, Inv;
      LegalPrefix(EMPTY, steps);
      LoadedPrefix(steps, id);
      EmptyInv();
      ReachableInv(EMPTY, rest);
      if id in Run(EMPTY, rest).memories {
        ReachableNative(rest, id);
      }
      StepKeepsNative(Run(EMPTY, rest), steps[|steps| - 1], id);
    }
  }

  // ---------------------------------------------------------------- every memory is a valid value

  ghost predicate MemoriesValid(s: Store) {
    forall id :: id in s.memories ==> ValidMemory(s.memories[id])
  }

  lemma {:induction false} LoadedValid(s: Store, records: seq<Record>)
    requires MemoriesValid(s) && forall i :: 0 <= i < |records| ==> ValidMemory(records[i].memory)
    ensures MemoriesValid(LoadRecords(s, records))
    decreases |records|
  {
    hide ValidMemory;
    if records != [] {
      LoadedValid(s, records[..|records| - 1]);
    }
  }

  lemma CommitValid(s: Store, e: Effect)
    requires MemoriesValid(s) && Sound(e)
    requires e.Load? ==> forall i :: 0 <= i < |e.records| ==> ValidMemory(e.records[i].memory)
    ensures MemoriesValid(Commit(s, e))
  {
    hide ValidMemory;
    if e.Load? {
      LoadedValid(s, e.records);
    }
  }

  lemma ImportedValid(s: Store, step: Step)
    requires LegalStep(s, step) && step.command.Import? && Decide(s, step.env, step.command).Ok?
    ensures
      var e := Decide(s, step.env, step.command).value.effect;
      e.Load? && forall i :: 0 <= i < |e.records| ==> ValidMemory(e.records[i].memory)
  {
    hide DecideWrite, DecideCapture, DecideConfirm, DecidePin, DecideUpdate, DecideDiscard, DecideForget, DecideRelate,
      DecideImport, ValidMemory, ValidRecord, Prepare, Admit, InPackage, EndpointsExist, DistinctIds, Unused;
    ImportFacts(s, step.env, step.command.owner, step.command.records);
    PreparedPackage(s, step.env, step.command.owner, step.command.records);
  }

  /** In every reachable store each memory is a value that could be constructed. */
  lemma {:induction false} ReachableValid(steps: seq<Step>)
    requires LegalRun(EMPTY, steps)
    ensures MemoriesValid(Run(EMPTY, steps))
    decreases |steps|
  {
    if steps != [] {
      hide MemoriesValid, Inv, LegalRun, LegalStep, Decide, Sound, Commit;
      var rest, last := steps[..|steps| - 1], steps[|steps| - 1];
      LegalPrefix(EMPTY, steps);
      ReachableValid(rest);
      var mid := Run(EMPTY, rest);
      if Decide(mid, last.env, last.command).Ok? {
        DecisionSound(mid, last.env, last.command);
        if last.command.Import? {
          ImportedValid(mid, last);
        } else {
          OnlyImportsLoad(mid, last.env, last.command);
        }
        CommitValid(mid, Decide(mid, last.env, last.command).value.effect);
      }
    } else {
      assert MemoriesValid(EMPTY);
    }
  }

  // ---------------------------------------------------------------- evidence of supersession

  /** Step `i` of the run was a successful update of `id` naming `target` with this kind. */
  ghost predicate NamedAt(s: Store, steps: seq<Step>, i: nat, id: Id, target: Id, kind: RelationType)
    requires i < |steps|
  {
    && steps[i].command.Update? && steps[i].command.update.memoryId == id
    && (kind == Supersedes ==> steps[i].command.update.supersedes == Some(target))
    && (kind == Contradicts ==> steps[i].command.update.contradicts == Some(target))
    && Decide(Run(s, steps[..i]), steps[i].env, steps[i].command).Ok?
  }

  /** `id` was live before some step after step `i` and is gone after it. */
  ghost predicate ForgottenAfter(s: Store, steps: seq<Step>, i: nat, id: Id) {
    exists j :: i < j < |steps| && ForgottenAt(s, steps, j, id)
  }

  ghost predicate ForgottenAt(s: Store, steps: seq<Step>, j: nat, id: Id)
    requires j < |steps|
  {
    id in Run(s, steps[..j]).memories && id !in Run(s, steps[..j + 1]).memories
  }

  /** Step `i` named the target, and the relation is still there or the target was forgotten later. */
  ghost predicate ExplainedBy(s: Store, steps: seq<Step>, i: nat, id: Id, target: Id, kind: RelationType) {
    var t := Run(s, steps);
    && id in t.memories && i < |steps| && NamedAt(s, steps, i, id, target, kind)
    && (RelationKey(t.memories[id].owner, id, target, kind) in t.relations || ForgottenAfter(s, steps, i, target))
  }

  ghost predicate Explained(s: Store, steps: seq<Step>, id: Id, kind: RelationType) {
    exists i, target :: ExplainedBy(s, steps, i, id, target, kind)
  }

  function ExplainingKind(state: MemoryState): RelationType {
    if state == Superseded then Supersedes else Contradicts
  }

  /** While the memory lives, a relation that explains its state goes only when its target is
      forgotten. */
  lemma BackingSurvives(s: Store, e: Effect, owner: string, id: Id, target: Id, kind: RelationType)
    requires Inv(s) && Enabled(s, e) && RelationKey(owner, id, target, kind) in s.relations
    requires id in Commit(s, e).memories && RelationKey(owner, id, target, kind) !in Commit(s, e).relations
    ensures e.Erase? && e.id == target && target in s.memories && target !in Commit(s, e).memories
  {
    RelationLost(s, e, RelationKey(owner, id, target, kind));
  }

  /** Relations disappear only with one of their ends. */
  lemma RelationLost(s: Store, e: Effect, k: RelationKey)
    requires Inv(s) && Enabled(s, e) && k in s.relations && k !in Commit(s, e).relations
    ensures e.Erase? && (e.id == k.source || e.id == k.target) && Grave(s.memories[e.id]) in Commit(s, e).tombstones
  {
    match e
    case Load(records) =>
      LoadedFrame(s, records);
      RelationsLoaded(s.relations, PackageRelations(records));
    case _ =>
  }

  lemma UpdateLinkNamesTarget(s: Store, env: Env, c: UpdateCommand)
    requires Aligned(s) && DecideUpdate(s, env, c).Ok? && DecideUpdate(s, env, c).value.effect.Advance?
    ensures
      var e := DecideUpdate(s, env, c).value.effect;
      && c.memoryId == e.memory.id
      && (e.link.Some? && e.link.value.kind == Supersedes ==> c.supersedes == Some(e.link.value.target))
      && (e.link.Some? && e.link.value.kind == Contradicts ==> c.contradicts == Some(e.link.value.target))
  {
    hide Embed, GetVersion, Evolve;
    EvolveIsNextVersion(s.memories[c.memoryId], env.now, UpdateChanges(c, env), c.reason, Related(c));
  }

  /** Only an update that names a memory brings a relation with it. */
  lemma LinkNamesTarget(s: Store, env: Env, c: Command)
    requires Aligned(s) && Decide(s, env, c).Ok? && Decide(s, env, c).value.effect.Advance?
    requires Decide(s, env, c).value.effect.link.Some?
    ensures
      var e := Decide(s, env, c).value.effect;
      && c.Update? && c.update.memoryId == e.memory.id
      && (e.link.value.kind == Supersedes ==> c.update.supersedes == Some(e.link.value.target))
      && (e.link.value.kind == Contradicts ==> c.update.contradicts == Some(e.link.value.target))
  {
    hide Evolve, Construct, Embed, GetVersion, Claim, Get, MutationAllowed, Bound, Screen, Admit, Prepare,
      EndpointsExist, DistinctIds, CaptureAllowed, CountNew, ValidOwner, DecideUpdate, Aligned;
    if c.Update? {
      UpdateLinkNamesTarget(s, env, c.update);
    }
  }

  lemma NamedExtends(s: Store, steps: seq<Step>, i: nat, id: Id, target: Id, kind: RelationType)
    requires steps != [] && i < |steps| - 1 && NamedAt(s, steps[..|steps| - 1], i, id, target, kind)
    ensures NamedAt(s, steps, i, id, target, kind)
  {
    assert steps[..|steps| - 1][..i] == steps[..i];
    hide Decide, Run;
  }

  lemma ForgottenExtends(s: Store, steps: seq<Step>, i: nat, id: Id)
    requires steps != [] && ForgottenAfter(s, steps[..|steps| - 1], i, id)
    ensures ForgottenAfter(s, steps, i, id)
  {
    var rest := steps[..|steps| - 1];
    var j :| i < j < |rest| && ForgottenAt(s, rest, j, id);
    assert rest[..j] == steps[..j] && rest[..j + 1] == steps[..j + 1];
    hide Run;
    assert ForgottenAt(s, steps, j, id);
  }

  /** The memory that is superseded (contradicted) after an effect either was so before, or the
      effect carries the relation. */
  lemma NewStateIsLinked(s: Store, e: Effect, id: Id)
    requires Inv(s) && Enabled(s, e) && id in Commit(s, e).memories
    requires e.Load? ==> id in s.memories
    requires Commit(s, e).memories[id].state in {Superseded, Contradicted}
    ensures id in s.memories
    ensures
      var m := Commit(s, e).memories[id];
      && m.owner == s.memories[id].owner
      && (m.state != s.memories[id].state ==>
            && e.Advance? && e.memory.id == id && e.link.Some? && e.link.value.kind == ExplainingKind(m.state)
            && RelationKey(m.owner, id, e.link.value.target, ExplainingKind(m.state)) in Commit(s, e).relations)
  {
    match e
    case Load(records) => LoadedFrame(s, records);
    case _ =>
  }

  /** The explanation found before the last step still explains after it. */
  lemma ExplanationCarries(s: Store, steps: seq<Step>, id: Id, kind: RelationType)
    requires steps != [] && Explained(s, steps[..|steps| - 1], id, kind) && id in Run(s, steps).memories
    requires
      var mid, t := Run(s, steps[..|steps| - 1]), Run(s, steps);
      && t.memories[id].owner == mid.memories[id].owner
      && forall target :: RelationKey(t.memories[id].owner, id, target, kind) in mid.relations ==>
           RelationKey(t.memories[id].owner, id, target, kind) in t.relations
           || (target in mid.memories && target !in t.memories)
    ensures Explained(s, steps, id, kind)
  {
    var rest, n := steps[..|steps| - 1], |steps| - 1;
    assert steps[..n] == rest && steps[..n + 1] == steps;
    hide Run, NamedAt, ForgottenAfter;
    var i, target :| ExplainedBy(s, rest, i, id, target, kind);
    NamedExtends(s, steps, i, id, target, kind);
    if ForgottenAfter(s, rest, i, target) {
      ForgottenExtends(s, steps, i, target);
    } else if RelationKey(Run(s, steps).memories[id].owner, id, target, kind) !in Run(s, steps).relations {
      assert ForgottenAt(s, steps, n, target);
      ForgottenNow(s, steps, i, n, target);
    }
    assert ExplainedBy(s, steps, i, id, target, kind);
  }

  lemma ForgottenNow(s: Store, steps: seq<Step>, i: nat, j: nat, id: Id)
    requires i < j < |steps| && ForgottenAt(s, steps, j, id)
    ensures ForgottenAfter(s, steps, i, id)
  {
  }

  lemma FreshExplanation(s: Store, steps: seq<Step>, id: Id, e: Effect)
    requires steps != [] && id in Run(s, steps).memories && e.Advance? && e.link.Some? && e.memory.id == id
    requires
      var last := steps[|steps| - 1];
      Decide(Run(s, steps[..|steps| - 1]), last.env, last.command) .Ok?
      && Decide(Run(s, steps[..|steps| - 1]), last.env, last.command).value.effect == e
    requires Aligned(Run(s, steps[..|steps| - 1]))
    requires
      var t := Run(s, steps);
      RelationKey(t.memories[id].owner, id, e.link.value.target, e.link.value.kind) in t.relations
    ensures Explained(s, steps, id, e.link.value.kind)
  {
    hide Decide, Run, Aligned;
    var last := steps[|steps| - 1];
    LinkNamesTarget(Run(s, steps[..|steps| - 1]), last.env, last.command);
    assert NamedAt(s, steps, |steps| - 1, id, e.link.value.target, e.link.value.kind);
    assert ExplainedBy(s, steps, |steps| - 1, id, e.link.value.target, e.link.value.kind);
  }

  /** One committed effect carries explanations along or supplies a new one. */
  lemma EffectExplains(s: Store, steps: seq<Step>, id: Id, e: Effect)
    requires steps != [] && id in Run(s, steps).memories
        && Run(s, steps).memories[id].state in {Superseded, Contradicted}
    requires Inv(Run(s, steps[..|steps| - 1])) && Enabled(Run(s, steps[..|steps| - 1]), e)
    requires
      var last := steps[|steps| - 1];
      Decide(Run(s, steps[..|steps| - 1]), last.env, last.command).Ok?
      && Decide(Run(s, steps[..|steps| - 1]), last.env, last.command).value.effect == e
    requires e.Load? ==> id in Run(s, steps[..|steps| - 1]).memories
    requires
      var mid := Run(s, steps[..|steps| - 1]);
      id in mid.memories && mid.memories[id].state in {Superseded, Contradicted} ==>
        Explained(s, steps[..|steps| - 1], id, ExplainingKind(mid.memories[id].state))
    ensures Explained(s, steps, id, ExplainingKind(Run(s, steps).memories[id].state))
  {
    var mid := Run(s, steps[..|steps| - 1]);
    assert Run(s, steps) == Commit(mid, e);
    hide Decide, Enabled, Commit, Run, InPackage, Explained, RelationsSound, KeysHeld;
    NewStateIsLinked(mid, e, id);
    if mid.memories[id].state == Run(s, steps).memories[id].state {
      var kind := ExplainingKind(mid.memories[id].state);
      var owner := mid.memories[id].owner;
      forall target | RelationKey(owner, id, target, kind) in mid.relations
        ensures RelationKey(owner, id, target, kind) in Commit(mid, e).relations
                || (target in mid.memories && target !in Commit(mid, e).memories)
      {
        if RelationKey(owner, id, target, kind) !in Commit(mid, e).relations {
          BackingSurvives(mid, e, owner, id, target, kind);
        }
      }
      ExplanationCarries(s, steps, id, kind);
    } else {
      FreshExplanation(s, steps, id, e);
    }
  }

  lemma StepExplains(s: Store, steps: seq<Step>, id: Id)
    requires steps != [] && id in Run(s, steps).memories && !Loads(Run(s, steps[..|steps| - 1]), steps[|steps| - 1], id)
    requires Inv(Run(s, steps[..|steps| - 1])) && LegalStep(Run(s, steps[..|steps| - 1]), steps[|steps| - 1])
    requires Run(s, steps).memories[id].state in {Superseded, Contradicted}
    requires
      var mid := Run(s, steps[..|steps| - 1]);
      id in mid.memories && mid.memories[id].state in {Superseded, Contradicted} ==>
        Explained(s, steps[..|steps| - 1], id, ExplainingKind(mid.memories[id].state))
    ensures Explained(s, steps, id, ExplainingKind(Run(s, steps).memories[id].state))
  {
    hide Decide, Enabled, Commit, Inv, LegalStep, Explained, InPackage;
    var last := steps[|steps| - 1];
    var mid := Run(s, steps[..|steps| - 1]);
    var d := Decide(mid, last.env, last.command);
    if d.Ok? {
      DecisionEnabled(mid, last);
      if !last.command.Import? {
        OnlyImportsLoad(mid, last.env, last.command);
      }
      EffectExplains(s, steps, id, d.value.effect);
    } else {
      ExplanationCarries(s, steps, id, ExplainingKind(mid.memories[id].state));
    }
  }

  /** In every reachable store, a superseded (contradicted) memory that was not loaded from a package
      named a memory it supersedes (contradicts) in a successful update, and the relation to that memory
      is still there unless a later step forgot that memory. */
  lemma {:induction false} SupersessionEvidence(steps: seq<Step>, id: Id)
    requires LegalRun(EMPTY, steps) && id in Run(EMPTY, steps).memories && !LoadedIn(steps, id)
    requires Run(EMPTY, steps).memories[id].state in {Superseded, Contradicted}
    ensures Explained(EMPTY, steps, id, ExplainingKind(Run(EMPTY, steps).memories[id].state))
    decreases |steps|
  {
    if steps != [] {
      var rest := steps[..|steps| - 1];
      hide Explained, Apply, Inv;
      LegalPrefix(EMPTY, steps);
      LoadedPrefix(steps, id);
      EmptyInv();
      ReachableInv(EMPTY, rest);
      var mid := Run(EMPTY, rest);
      if id in mid.memories && mid.memories[id].state in {Superseded, Contradicted} {
        SupersessionEvidence(rest, id);
      }
      StepExplains(EMPTY, steps, id);
    }
  }
}
