/** Which runs keep every owner exportable. */
module Portability {
  import opened Domain
  import opened MemoryStore
  import opened StoreInvariants
  import opened RoundTrip

  /** Without imports every write key has exactly one live holder and keeps its fingerprint. */
  ghost predicate KeysExact(s: Store) {
    && (forall id :: id in s.memories && s.memories[id].idempotencyKey.Some? ==>
          WriteKey(s.memories[id].owner, s.memories[id].idempotencyKey.value) in s.fingerprints)
    && (forall a, b :: a in s.memories && b in s.memories && a != b && s.memories[a].idempotencyKey.Some? ==>
          s.memories[a].owner != s.memories[b].owner || s.memories[a].idempotencyKey != s.memories[b].idempotencyKey)
  }

  ghost predicate EffectDimensioned(e: Effect, d: nat) {
    e.Create? || e.Advance? ==>
      |e.vector| == d && e.memory.embedding.Some? && e.memory.embedding.value.dimension == d
  }

  lemma CreateKeepsKeysExact(s: Store, m: Memory, f: Fingerprint, v: Vector)
    requires KeysExact(s) && m.id !in s.memories
    requires m.idempotencyKey.Some? ==> WriteKey(m.owner, m.idempotencyKey.value) !in s.fingerprints
    ensures KeysExact(Commit(s, Create(m, f, v)))
  {
  }

  lemma EraseKeepsKeysExact(s: Store, id: Id)
    requires KeysExact(s) && id in s.memories
    ensures KeysExact(Bury(s, id))
  {
  }

  /** Keys and owners of the memories are what they were. */
  lemma SameKeysExact(s: Store, t: Store)
    requires KeysExact(s) && t.fingerprints == s.fingerprints && t.memories.Keys == s.memories.Keys
    requires forall id :: id in s.memories ==>
               t.memories[id].owner == s.memories[id].owner
                   && t.memories[id].idempotencyKey == s.memories[id].idempotencyKey
    ensures KeysExact(t)
  {
  }

  lemma EffectKeepsKeysExact(s: Store, e: Effect)
    requires Enabled(s, e) && !e.Load? && KeysExact(s)
    ensures KeysExact(Commit(s, e))
  {
    hide KeysExact, LinkOpen, Evidenced, Detach, Attach, Post, EntryOpen, Register;
    var t := Commit(s, e);
    match e
    case Create(m, f, v) => CreateKeepsKeysExact(s, m, f, v);
    case Erase(id, entry) =>
      EraseKeepsKeysExact(s, id);
      SameKeysExact(Bury(s, id), t);
    case Advance(m, _, _, _, _) =>
      assert t.memories.Keys == s.memories.Keys;
      SameKeysExact(s, t);
    case Settle(_) => SameKeysExact(s, t);
    case Link(_) => SameKeysExact(s, t);
    case Nothing =>
  }

  lemma EvolvedEmbedding(m: Memory, now: Time, c: Changes, reason: string, related: Option<Id>)
    requires Evolve(m, now, c, reason, related).Ok?
    ensures Evolve(m, now, c, reason, related).value.embedding == if c.embedding.Some? then c.embedding else m.embedding
  {
  }

  lemma PinDimensioned(s: Store, env: Env, c: PinCommand)
    requires DecidePin(s, env, c).Ok?
    ensures
      var e := DecidePin(s, env, c).value.effect;
      && !e.Create?
      && (e.Advance? ==>
            && c.memoryId in s.memories && e.memory.id == s.memories[c.memoryId].id && e.memory.owner == c.owner
            && e.memory.embedding == s.memories[c.memoryId].embedding
            && |e.vector| == env.provider.profile.dimension)
  {
    hide Evolve, MutationAllowed, GetVersion;
    if DecidePin(s, env, c).value.effect.Advance? {
      var changes := Changes(None, None, None, None, Some(PinTarget(c)), None, None, None, None);
      var reason := if c.pinned then "pinned" else "unpinned";
      EvolvedEmbedding(s.memories[c.memoryId], env.now, changes, reason, None);
      EvolveIsNextVersion(s.memories[c.memoryId], env.now, changes, reason, None);
    }
  }

  lemma ConfirmDimensioned(s: Store, env: Env, c: ConfirmCommand)
    requires DecideConfirm(s, env, c).Ok?
    ensures EffectDimensioned(DecideConfirm(s, env, c).value.effect, env.provider.profile.dimension)
  {
    hide Evolve, MutationAllowed, GetVersion;
    if DecideConfirm(s, env, c).value.effect.Advance? {
      EvolvedEmbedding(s.memories[c.memoryId], env.now, ConfirmChanges(c, env), c.reason, None);
    }
  }

  lemma UpdateDimensioned(s: Store, env: Env, c: UpdateCommand)
    requires DecideUpdate(s, env, c).Ok?
    ensures EffectDimensioned(DecideUpdate(s, env, c).value.effect, env.provider.profile.dimension)
  {
    hide Evolve, RelatedExists, GetVersion;
    if DecideUpdate(s, env, c).value.effect.Advance? {
      EvolvedEmbedding(s.memories[c.memoryId], env.now, UpdateChanges(c, env), c.reason, Related(c));
    }
  }

  lemma CreationDimensioned(s: Store, env: Env, c: Command)
    requires (c.Write? || c.Capture?) && Decide(s, env, c).Ok?
    ensures EffectDimensioned(Decide(s, env, c).value.effect, env.provider.profile.dimension)
  {
    hide Bound, CaptureAllowed, Acceptable, Normalise, Blank;
  }

  // ---------------------------------------------------------------- what a step does to one memory

  /** The vector has the dimension its memory's descriptor announces. */
  ghost predicate Fits(m: Memory, v: Vector) {
    m.embedding.Some? && |v| == m.embedding.value.dimension
  }

  ghost predicate Described(s: Store) {
    forall id :: id in s.memories ==> s.memories[id].embedding.Some?
  }

  /** The step writes a vector for `id`. */
  ghost predicate Embeds(s: Store, step: Step, id: Id) {
    var d := Decide(s, step.env, step.command);
    d.Ok? && (d.value.effect.Create? || d.value.effect.Advance?) && d.value.effect.memory.id == id
  }

  /** The step is a pin under a provider of another dimension than the descriptor of `id`. */
  ghost predicate ForeignPin(s: Store, step: Step, id: Id) {
    && step.command.Pin? && id in s.memories && s.memories[id].embedding.Some?
    && step.env.provider.profile.dimension != s.memories[id].embedding.value.dimension
  }

  /** A step that writes a vector makes it fit its descriptor unless it is a foreign pin. */
  lemma EmbeddingFits(s: Store, step: Step, id: Id)
    requires Inv(s) && Described(s) && Embeds(s, step, id)
    ensures
      var e := Decide(s, step.env, step.command).value.effect;
      e.memory.embedding.Some? && (Fits(e.memory, e.vector) <==> !ForeignPin(s, step, id))
  {
    hide DecideWrite, DecideCapture, DecideConfirm, DecidePin, DecideUpdate, Screen, Prepare, Admit, ValidRecord,
      EndpointsExist, Claim, CountNew, DistinctIds, RelationsSound, KeysHeld, DeletionTerminal, LedgerSettled,
      CompleteHistory;
    match step.command
    case Write(w) => CreationDimensioned(s, step.env, step.command);
    case Capture(w) => CreationDimensioned(s, step.env, step.command);
    case Confirm(w) => ConfirmDimensioned(s, step.env, w);
    case Pin(w) => PinDimensioned(s, step.env, w);
    case Update(w) => UpdateDimensioned(s, step.env, w);
    case _ =>
  }

  /** A step leaves descriptor and vector of a memory alone unless it embeds it. */
  lemma OthersKeepVectors(s: Store, e: Effect, id: Id)
    requires Aligned(s) && Enabled(s, e) && !e.Load? && id in Commit(s, e).memories
    requires !((e.Create? || e.Advance?) && e.memory.id == id)
    ensures id in s.memories && id in s.vectors && id in Commit(s, e).vectors
    ensures Commit(s, e).memories[id] == s.memories[id] && Commit(s, e).vectors[id] == s.vectors[id]
  {
  }

  lemma CommitDescribed(s: Store, e: Effect)
    requires Described(s) && Enabled(s, e) && !e.Load?
    requires e.Create? || e.Advance? ==> e.memory.embedding.Some?
    ensures Described(Commit(s, e))
  {
  }

  // ---------------------------------------------------------------- over runs without imports

  ghost predicate ImportFree(steps: seq<Step>) {
    forall i :: 0 <= i < |steps| ==> !steps[i].command.Import?
  }

  /** The last step that wrote a vector for `id` was a foreign pin. */
  ghost predicate Misfit(steps: seq<Step>, id: Id)
    decreases |steps|
  {
    && steps != []
    && var rest, last := steps[..|steps| - 1], steps[|steps| - 1];
       if Embeds(Run(EMPTY, rest), last, id) then ForeignPin(Run(EMPTY, rest), last, id) else Misfit(rest, id)
  }

  lemma ImportFreePrefix(steps: seq<Step>)
    requires ImportFree(steps) && steps != []
    ensures ImportFree(steps[..|steps| - 1]) && !steps[|steps| - 1].command.Import?
  {
  }

  lemma {:induction false} ImportFreeRun(steps: seq<Step>)
    requires LegalRun(EMPTY, steps) && ImportFree(steps)
    ensures Inv(Run(EMPTY, steps)) && KeysExact(Run(EMPTY, steps)) && Described(Run(EMPTY, steps))
    decreases |steps|
  {
    EmptyInv();
    ReachableInv(EMPTY, steps);
    if steps != [] {
      hide Inv, LegalRun, LegalStep, Decide, Enabled, KeysExact, Described, Commit, Embeds, ForeignPin, ImportFree;
      var rest, last := steps[..|steps| - 1], steps[|steps| - 1];
      LegalPrefix(EMPTY, steps);
      ImportFreePrefix(steps);
      ImportFreeRun(rest);
      var mid := Run(EMPTY, rest);
      if Decide(mid, last.env, last.command).Ok? {
        var e := Decide(mid, last.env, last.command).value.effect;
        DecisionEnabled(mid, last);
        OnlyImportsLoad(mid, last.env, last.command);
        EffectKeepsKeysExact(mid, e);
        if e.Create? || e.Advance? {
          EmbedsOwn(mid, last);
          EmbeddingFits(mid, last, e.memory.id);
        }
        CommitDescribed(mid, e);
      }
    }
  }

  lemma EmbedsOwn(s: Store, step: Step)
    requires Decide(s, step.env, step.command).Ok?
    ensures
      var e := Decide(s, step.env, step.command).value.effect;
      e.Create? || e.Advance? ==> Embeds(s, step, e.memory.id)
  {
    hide Decide;
  }

  /** Over any run without imports, whatever its providers, a live memory's vector fits its
      descriptor exactly when the last step that wrote the vector was no foreign pin. */
  lemma {:induction false} FitsIffNoMisfit(steps: seq<Step>, id: Id)
    requires LegalRun(EMPTY, steps) && ImportFree(steps) && id in Run(EMPTY, steps).memories
    ensures
      var s := Run(EMPTY, steps);
      id in s.vectors && (Fits(s.memories[id], s.vectors[id]) <==> !Misfit(steps, id))
    decreases |steps|
  {
    if steps != [] {
      hide Inv, LegalRun, LegalStep, Enabled, Described, ForeignPin, Fits, ImportFree, KeysExact, Decide, Commit;
      var rest, last := steps[..|steps| - 1], steps[|steps| - 1];
      LegalPrefix(EMPTY, steps);
      ImportFreePrefix(steps);
      ImportFreeRun(rest);
      var mid := Run(EMPTY, rest);
      AlignedOf(mid);
      if Decide(mid, last.env, last.command).Ok? {
        DecisionEnabled(mid, last);
        OnlyImportsLoad(mid, last.env, last.command);
        var e := Decide(mid, last.env, last.command).value.effect;
        if Embeds(mid, last, id) {
          EmbeddingFits(mid, last, id);
          EmbeddedIsStored(mid, e);
        } else {
          OthersKeepVectors(mid, e, id);
          FitsIffNoMisfit(rest, id);
        }
      } else {
        FitsIffNoMisfit(rest, id);
      }
    }
  }

  lemma EmbeddedIsStored(s: Store, e: Effect)
    requires e.Create? || e.Advance?
    ensures
      var t := Commit(s, e);
      && e.memory.id in t.memories && t.memories[e.memory.id] == e.memory
      && e.memory.id in t.vectors && t.vectors[e.memory.id] == e.vector
  {
  }

  /** So an owner of a run without imports is portable exactly when no live memory of the owner
      ends with a foreign pin. */
  lemma ImportFreePortable(steps: seq<Step>, owner: string)
    requires LegalRun(EMPTY, steps) && ImportFree(steps)
    ensures Aligned(Run(EMPTY, steps))
    ensures Portable(Run(EMPTY, steps), owner) <==>
              forall id :: LiveFor(Run(EMPTY, steps), owner, id) ==> !Misfit(steps, id)
  {
    hide Run, LegalRun, ImportFree, CompleteHistory, Misfit, RelationsSound, KeysHeld, DeletionTerminal, LedgerSettled;
    ImportFreeRun(steps);
    var s := Run(EMPTY, steps);
    forall id | LiveFor(s, owner, id) ensures PortableMemory(s, id) <==> !Misfit(steps, id) {
      FitsIffNoMisfit(steps, id);
    }
  }

  /** The round trip over runs: the export of an owner from a store reached without imports rebuilds
      the owner's share of it in an empty store exactly when no live memory ends with a foreign pin,
      and is rejected without a trace otherwise. */
  lemma RunRoundTrip(steps: seq<Step>, env: Env, owner: string, records: seq<Record>)
    requires LegalRun(EMPTY, steps) && ImportFree(steps) && ValidOwner(owner)
        && IsExport(Run(EMPTY, steps), owner, records)
    ensures
      var s := Run(EMPTY, steps);
      Apply(EMPTY, env, Import(owner, records)) ==
      if forall id :: LiveFor(s, owner, id) ==> !Misfit(steps, id) then Share(s, owner) else EMPTY
  {
    hide *;
    EmptyInv();
    ReachableInv(EMPTY, steps);
    ImportFreePortable(steps, owner);
    ExportImportRoundTrip(Run(EMPTY, steps), env, owner, records);
  }

  /** In particular, every owner is portable when each pin that moves a memory sees the dimension of
      that memory's descriptor, however the provider changes otherwise. */
  lemma GuardedRunIsPortable(steps: seq<Step>, owner: string)
    requires LegalRun(EMPTY, steps) && ImportFree(steps)
    requires forall i, id :: 0 <= i < |steps| && Embeds(Run(EMPTY, steps[..i]), steps[i], id) ==>
        !ForeignPin(Run(EMPTY, steps[..i]), steps[i], id)
    ensures Aligned(Run(EMPTY, steps)) && Portable(Run(EMPTY, steps), owner)
  {
    ImportFreePortable(steps, owner);
    hide *;
    forall id ensures !Misfit(steps, id) {
      NoForeignPin(steps, id);
    }
  }

  lemma {:induction false} NoForeignPin(steps: seq<Step>, id: Id)
    requires forall i :: 0 <= i < |steps| && Embeds(Run(EMPTY, steps[..i]), steps[i], id) ==>
        !ForeignPin(Run(EMPTY, steps[..i]), steps[i], id)
    ensures !Misfit(steps, id)
    decreases |steps|
  {
    if steps != [] {
      hide Run, Embeds, ForeignPin;
      var rest, n := steps[..|steps| - 1], |steps| - 1;
      assert forall i :: 0 <= i < n ==> rest[..i] == steps[..i] && rest[i] == steps[i];
      assert steps[..n] == rest;
      NoForeignPin(rest, id);
    }
  }

  /** One step of this: a pin that moves its memory leaves it portable exactly when the provider's
      dimension is still the one the memory's descriptor announces. */
  lemma PinKeepsPortable(s: Store, env: Env, c: PinCommand)
    requires Inv(s) && LiveFor(s, c.owner, c.memoryId) && Portable(s, c.owner)
    requires DecidePin(s, env, c).Ok? && DecidePin(s, env, c).value.effect.Advance?
    ensures
      var t := Commit(s, DecidePin(s, env, c).value.effect);
      && Aligned(t) && LiveFor(t, c.owner, c.memoryId)
      && (PortableMemory(t, c.memoryId) <==>
           env.provider.profile.dimension == s.memories[c.memoryId].embedding.value.dimension)
      && (Portable(t, c.owner) <==> env.provider.profile.dimension == s.memories[c.memoryId].embedding.value.dimension)
  {
    hide DecidePin, Enabled, RelationsSound, KeysHeld, DeletionTerminal, LedgerSettled, CompleteHistory;
    var e := DecidePin(s, env, c).value.effect;
    PinDimensioned(s, env, c);
    PinEnabled(s, env, c);
    CommitAligned(s, e);
    PinnedPortable(s, e);
  }

  lemma PinnedPortable(s: Store, e: Effect)
    requires Aligned(s) && e.Advance? && Enabled(s, e) && e.memory.embedding == s.memories[e.memory.id].embedding
    requires Portable(s, e.memory.owner)
    requires Aligned(Commit(s, e))
    ensures
      var t := Commit(s, e);
      var id := e.memory.id;
      && LiveFor(s, e.memory.owner, id) && LiveFor(t, e.memory.owner, id)
      && (PortableMemory(t, id) <==> |e.vector| == s.memories[id].embedding.value.dimension)
      && (Portable(t, e.memory.owner) <==> PortableMemory(t, id))
  {
    hide CompleteHistory, LinkOpen, EntryOpen, Evidenced;
    var t := Commit(s, e);
    assert LiveFor(s, e.memory.owner, e.memory.id);
    assert PortableMemory(s, e.memory.id);
    forall id | LiveFor(t, e.memory.owner, id) && id != e.memory.id ensures PortableMemory(t, id) {
      assert LiveFor(s, e.memory.owner, id) && PortableMemory(s, id);
    }
  }
}
