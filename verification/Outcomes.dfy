/** What each command does, said of the stored tables alone: when it succeeds, what it answers, and
    what every table holds afterwards. */
module Outcomes {
  import opened Domain
  import opened MemoryStore
  import opened StoreInvariants

  // ---------------------------------------------------------------- vocabulary

  /** The owner, in this tenant if one is given, has the memory. */
  ghost predicate Owns(s: Store, owner: string, tenant: Option<string>, id: Id) {
    && id in s.memories && s.memories[id].owner == owner
    && (tenant.Some? ==> s.memories[id].tenant == tenant)
  }

  /** A lookup finds exactly what the owner has. */
  lemma GetFinds(s: Store, owner: string, tenant: Option<string>, id: Id)
    ensures Get(s, owner, id, tenant).Some? <==> Owns(s, owner, tenant, id)
    ensures Owns(s, owner, tenant, id) ==> Get(s, owner, id, tenant) == Some(s.memories[id])
  {
  }

  ghost predicate OthersSame(s: Store, t: Store, id: Id) {
    forall k :: k != id ==>
      && (k in t.memories <==> k in s.memories) && (k in s.memories ==> t.memories[k] == s.memories[k])
      && (k in t.vectors <==> k in s.vectors) && (k in s.vectors ==> t.vectors[k] == s.vectors[k])
      && (k in t.history <==> k in s.history) && (k in s.history ==> t.history[k] == s.history[k])
  }

  /** The ledger has one more completed row, and is otherwise as it was. */
  ghost predicate Settled(s: Store, t: Store, key: OperationKey, id: Id, version: Option<int>, status: string) {
    && (forall k :: k in t.operations <==> k in s.operations || k == key)
    && (forall k :: k in s.operations && k != key ==> t.operations[k] == s.operations[k])
    && t.operations[key].status == Completed && t.operations[key].memoryId == Some(id)
    && t.operations[key].resultVersion == version && t.operations[key].resultStatus == Some(status)
  }

  ghost predicate SettledIfKeyed(s: Store, t: Store, owner: string, op: OperationType, key: Option<string>, id: Id,
                                 version: Option<int>, status: string) {
    if Keyed(key) then Settled(s, t, OperationKey(owner, op, key.value), id, version, status)
    else t.operations == s.operations
  }

  ghost predicate Keyed(key: Option<string>) {
    key.Some? && key.value != ""
  }

  ghost predicate ClaimedBefore(s: Store, owner: string, op: OperationType, key: Option<string>) {
    Keyed(key) && OperationKey(owner, op, key.value) in s.operations
  }

  // ---------------------------------------------------------------- deletion

  /** The memory is gone from every table, with its relations and its write key, and buried. */
  ghost predicate Erased(s: Store, t: Store, id: Id)
    requires id in s.memories
  {
    var m := s.memories[id];
    && id !in t.memories && id !in t.vectors && id !in t.history && OthersSame(s, t, id)
    && (forall k :: k in t.relations <==>
         k in s.relations && s.relations[k].source != id && s.relations[k].target != id)
    && (forall k :: k in t.relations ==> t.relations[k] == s.relations[k])
    && (forall w :: w in t.fingerprints <==>
          w in s.fingerprints && !(w.owner == m.owner && m.idempotencyKey == Some(w.key)))
    && (forall w :: w in t.fingerprints ==> t.fingerprints[w] == s.fingerprints[w])
    && t.tombstones == s.tombstones + {Tombstone(m.owner, m.tenant, id)}
  }

  /** The same in every table but the ledger. */
  ghost predicate SameButLedger(s: Store, t: Store) {
    t.(operations := s.operations) == s
  }

  lemma BuryErases(s: Store, id: Id)
    requires id in s.memories
    ensures Erased(s, Bury(s, id), id) && Bury(s, id).operations == s.operations
  {
  }

  /** Forget answers true exactly when the owner has the memory and the key is new, and then erases it;
      otherwise it changes nothing but the ledger. */
  lemma ForgetOutcome(s: Store, env: Env, c: ForgetCommand)
    ensures
      var d, t := Decide(s, env, Forget(c)), Apply(s, env, Forget(c));
      var unclaimed := !ClaimedBefore(s, c.owner, ForgetOp, c.key);
      && (d.Ok? && d.value.reply == Gone(c.memoryId, true) <==>
            ValidOwner(c.owner) && unclaimed && Owns(s, c.owner, c.tenant, c.memoryId))
      && (d.Ok? && d.value.reply == Gone(c.memoryId, true) ==>
            && Erased(s, t, c.memoryId)
            && SettledIfKeyed(s, t, c.owner, ForgetOp, c.key, c.memoryId, None, "forgotten"))
      && (ValidOwner(c.owner) && unclaimed && !Owns(s, c.owner, c.tenant, c.memoryId) ==>
            && d.Ok? && d.value.reply == Gone(c.memoryId, false) && SameButLedger(s, t)
            && SettledIfKeyed(s, t, c.owner, ForgetOp, c.key, c.memoryId, None, "already_absent"))
      && (!unclaimed ==> t == s && (d.Ok? ==> d.value.reply == Gone(c.memoryId, false)))
      && (!ValidOwner(c.owner) ==> d == Err(ValidationError) && t == s)
  {
    hide ValidOwner, Bury, Erased, OthersSame;
    if c.memoryId in s.memories {
      BuryErases(s, c.memoryId);
      ErasedFrame(s, Bury(s, c.memoryId), c.memoryId);
    }
  }

  /** Erasure does not look at the ledger. */
  lemma ErasedFrame(s: Store, t: Store, id: Id)
    requires id in s.memories && Erased(s, t, id)
    ensures forall operations :: Erased(s, t.(operations := operations), id)
  {
  }

  /** Forgotten for good: once a forget or a discard has answered true, no later run, whatever it
      imports, lets that owner and tenant find the memory again. */
  lemma ForgottenForGood(s: Store, step: Step, later: seq<Step>, id: Id)
    requires Inv(s) && LegalStep(s, step) && (step.command.Forget? || step.command.Discard?)
    requires Decide(s, step.env, step.command).Ok? && Decide(s, step.env, step.command).value.reply == Gone(id, true)
    requires step.command.Discard? ==> OperationOf(step.command).value !in s.operations
    requires LegalRun(Apply(s, step.env, step.command), later)
    ensures id in s.memories
    ensures
      var m, u := s.memories[id], Run(Apply(s, step.env, step.command), later);
      && !(id in u.memories && u.memories[id].owner == m.owner && u.memories[id].tenant == m.tenant)
      && (m.tenant.Some? ==> Get(u, m.owner, id, m.tenant).None?)
  {
    match step.command {
      case Forget(c) => ForgetOutcome(s, step.env, c);
      case Discard(c) => DiscardOutcome(s, step.env, c);
    }
    hide Decide, Inv, LegalStep, LegalRun, Apply, Run, OperationOf, OthersSame;
    var t := Apply(s, step.env, step.command);
    StepKeepsInv(s, step);
    LedgerMonotone(t, later);
    ReachableInv(t, later);
    BuriedIsAbsent(Run(t, later), s.memories[id], id);
  }

  lemma BuriedIsAbsent(u: Store, m: Memory, id: Id)
    requires Inv(u) && Tombstone(m.owner, m.tenant, id) in u.tombstones
    ensures !(id in u.memories && u.memories[id].owner == m.owner && u.memories[id].tenant == m.tenant)
    ensures m.tenant.Some? ==> Get(u, m.owner, id, m.tenant).None?
  {
    hide RelationsSound, KeysHeld, LedgerSettled, CompleteHistory;
  }

  /** Who may change memories through a connection. */
  predicate Authorised(scopes: set<string>, scope: string, tenant: string, owner: string, revoked: bool) {
    scope in scopes && !Blank(tenant) && ValidOwner(owner) && !revoked
  }

  /** Discard answers true for a new key exactly when an authorised caller names a candidate of its own
      at its current version, and then erases it; every other new key is refused without a trace, and
      a claimed one answers what it stored. */
  lemma DiscardOutcome(s: Store, env: Env, c: DiscardCommand)
    ensures
      var d, t := Decide(s, env, Discard(c)), Apply(s, env, Discard(c));
      var key := OperationKey(c.owner, DiscardOp, c.key);
      var allowed :=
        && Authorised(c.scopes, "memory:delete", c.tenant, c.owner, c.revoked)
             && Owns(s, c.owner, Some(c.tenant), c.memoryId)
        && s.memories[c.memoryId].version == c.expectedVersion && s.memories[c.memoryId].state == Candidate;
      && (key !in s.operations ==> (d.Ok? <==> allowed))
      && (key !in s.operations && d.Ok? ==>
            && d.value.reply == Gone(c.memoryId, true) && Erased(s, t, c.memoryId)
            && Settled(s, t, key, c.memoryId, None, "forgotten"))
      && (key in s.operations && d.Ok? ==>
            d.value.reply == Gone(c.memoryId, s.operations[key].resultStatus == Some("forgotten")))
      && (key in s.operations || d.Err? ==> t == s)
  {
    hide ValidOwner, Bury, Erased, OthersSame, Blank;
    if c.memoryId in s.memories {
      BuryErases(s, c.memoryId);
      ErasedFrame(s, Bury(s, c.memoryId), c.memoryId);
    }
  }

  /** Repeating a discard after any later run answers true again and changes nothing. */
  lemma DiscardRepeats(s: Store, first: Step, later: seq<Step>, env: Env)
    requires Inv(s) && LegalStep(s, first) && first.command.Discard?
        && OperationOf(first.command).value !in s.operations
    requires Decide(s, first.env, first.command).Ok? && LegalRun(Apply(s, first.env, first.command), later)
    ensures
      var u := Run(Apply(s, first.env, first.command), later);
      && Decide(u, env, first.command) == Ok(Outcome(Nothing, Gone(first.command.discard.memoryId, true)))
      && Apply(u, env, first.command) == u
  {
    var c := first.command.discard;
    DiscardOutcome(s, first.env, c);
    var t := Apply(s, first.env, first.command);
    StepKeepsInv(s, first);
    LedgerMonotone(t, later);
    DiscardRow(s, first.env, c);
    hide Decide, Inv, LegalStep, LegalRun, Apply, Run, Erased, OthersSame;
    DiscardReplays(Run(t, later), env, c);
    ClaimedKeyIsInert(Run(t, later), env, Discard(c));
  }

  lemma DiscardRow(s: Store, env: Env, c: DiscardCommand)
    requires Decide(s, env, Discard(c)).Ok? && OperationKey(c.owner, DiscardOp, c.key) !in s.operations
    ensures
      var t := Apply(s, env, Discard(c));
      && OperationKey(c.owner, DiscardOp, c.key) in t.operations
      && t.operations[OperationKey(c.owner, DiscardOp, c.key)].fingerprint == DiscardFingerprint(c)
      && Authorised(c.scopes, "memory:delete", c.tenant, c.owner, c.revoked)
  {
    hide ValidOwner, Bury, Blank;
  }

  lemma DiscardReplays(s: Store, env: Env, c: DiscardCommand)
    requires Authorised(c.scopes, "memory:delete", c.tenant, c.owner, c.revoked)
    requires OperationKey(c.owner, DiscardOp, c.key) in s.operations
    requires
      var row := s.operations[OperationKey(c.owner, DiscardOp, c.key)];
      row.fingerprint == DiscardFingerprint(c) && row.status == Completed && row.resultStatus == Some("forgotten")
    ensures Decide(s, env, Discard(c)) == Ok(Outcome(Nothing, Gone(c.memoryId, true)))
  {
    hide ValidOwner, Blank;
  }

  // ---------------------------------------------------------------- creation

  /** The fields of a memory are in range, written out. */
  ghost predicate InRange(m: Memory) {
    && !Blank(m.owner) && |Strip(m.owner)| <= 256
    && (m.tenant.Some? ==> !Blank(m.tenant.value) && |Strip(m.tenant.value)| <= 256)
    && (m.space.Some? ==> !Blank(m.space.value) && |Strip(m.space.value)| <= 256)
    && (m.idempotencyKey.Some? ==> !Blank(m.idempotencyKey.value) && |Strip(m.idempotencyKey.value)| <= 256)
    && !Blank(m.content) && |Normalise(m.content)| <= 100000
    && 0.0 <= m.importance <= 1.0 && 0.0 <= m.confidence <= 1.0
    && m.version >= 1 && m.createdAt <= m.updatedAt
  }

  /** A memory can be built exactly when its fields are in range, and building only normalises it. */
  lemma ConstructOutcome(m: Memory)
    ensures Construct(m).Ok? <==> InRange(m)
    ensures Construct(m).Ok? ==> Construct(m).value == m.(content := Normalise(m.content))
  {
    hide Strip, Normalise;
    NormaliseIdempotent(m.content);
  }

  /** The provider returns a vector of its own dimension for this text. */
  ghost predicate Embeddable(p: Provider, text: string) {
    p.embed(text).Some? && |p.embed(text).value| == p.profile.dimension
  }

  /** One snapshot shows the memory, field by field. */
  ghost predicate Shows(v: MemoryVersion, m: Memory) {
    && v.memoryId == m.id && v.version == m.version && v.content == m.content && v.memoryType == m.memoryType
    && v.state == m.state && v.importance == m.importance && v.confidence == m.confidence && v.space == m.space
    && v.occurredAt == m.occurredAt && v.provenance == m.provenance && v.changedAt == m.updatedAt
         && v.consent == m.consent
  }

  /** The store has one new memory with its vector, its first snapshot and its write key. */
  ghost predicate CreatedIn(s: Store, t: Store, m: Memory, v: Vector, f: Fingerprint) {
    && OthersSame(s, t, m.id) && m.id in t.memories && t.memories[m.id] == m
    && m.id in t.vectors && t.vectors[m.id] == v
    && m.id in t.history && |t.history[m.id]| == 1 && Shows(t.history[m.id][0], m)
         && t.history[m.id][0].reason == "created"
    && t.relations == s.relations && t.operations == s.operations && t.tombstones == s.tombstones
    && (if m.idempotencyKey.Some? then t.fingerprints == s.fingerprints[WriteKey(m.owner, m.idempotencyKey.value) := f]
        else t.fingerprints == s.fingerprints)
  }

  ghost predicate KeyUnbound(s: Store, owner: string, key: Option<string>) {
    Keyed(key) ==> WriteKey(owner, key.value) !in s.fingerprints
  }

  /** A write under a new key succeeds exactly when its fields are in range and its text can be
      embedded. The memory is active at version 1 with the fields of the command, its content
      normalised; its vector embeds the text as given. */
  lemma WriteOutcome(s: Store, env: Env, c: WriteCommand)
    requires KeyUnbound(s, c.owner, c.key)
    ensures
      var d, t := Decide(s, env, Write(c)), Apply(s, env, Write(c));
      && (d.Ok? <==> Embeddable(env.provider, c.content) && InRange(Draft(c, env)))
      && (d.Ok? ==>
            && d.value.reply.Created? && d.value.reply.memory.id == env.freshId
            && var m := d.value.reply.memory;
               && m.owner == c.owner && m.tenant == c.tenant && m.content == Normalise(c.content)
               && m.memoryType == c.memoryType && m.importance == c.importance && m.confidence == c.confidence
               && m.state == Active && m.version == 1 && m.createdAt == m.updatedAt == env.now
               && m.occurredAt == c.occurredAt && m.space == c.space && m.provenance == c.provenance
               && m.embedding == Some(env.provider.profile) && m.idempotencyKey == c.key && m.consent == None
               && CreatedIn(s, t, m, env.provider.embed(c.content).value, WriteFingerprint(c)))
      && (d.Err? ==> t == s)
  {
    ConstructOutcome(Draft(c, env));
    hide Construct, Normalise, Strip, Blank;
  }

  /** Scope, connection, capture policy and consent, written out. */
  ghost predicate CaptureConsented(c: CaptureCommand) {
    && "memory:write" in c.scopes && !Blank(c.tenant) && !Blank(c.connection) && ValidOwner(c.owner) && !c.revoked
    && match c.policy
       case "manual" => c.consent.reason == UserRequestedMemory || c.consent.reason == UserConfirmedInbox
       case "automatic" => c.consent.mode == Automatic
       case "assisted" => true
       case _ => false
  }

  /** The same for a capture, which makes a candidate with its consent. */
  lemma CaptureOutcome(s: Store, env: Env, c: CaptureCommand)
    requires WriteKey(c.owner, c.key) !in s.fingerprints
    ensures
      var d, t := Decide(s, env, Capture(c)), Apply(s, env, Capture(c));
      var sourced := c.provenance.sourceClient.Some? && c.provenance.sourceClient.value != "";
      && (d.Ok? <==>
            (CaptureConsented(c) && sourced && Embeddable(env.provider, c.content) && InRange(CaptureDraft(c, env))))
      && (d.Ok? ==>
            && d.value.reply.Created? && d.value.reply.memory.id == env.freshId
            && var m := d.value.reply.memory;
               && m.owner == c.owner && m.tenant == Some(c.tenant) && m.content == Normalise(c.content)
               && m.memoryType == c.memoryType && m.importance == c.importance && m.confidence == c.confidence
               && m.state == Candidate && m.version == 1 && m.createdAt == m.updatedAt == env.now
               && m.occurredAt == None && m.space == c.space && m.provenance == c.provenance
               && m.embedding == Some(env.provider.profile) && m.idempotencyKey == Some(c.key)
                    && m.consent == Some(c.consent)
               && CreatedIn(s, t, m, env.provider.embed(c.content).value, CaptureFingerprint(c)))
      && (d.Err? ==> t == s)
  {
    ConstructOutcome(CaptureDraft(c, env));
    hide Construct, Normalise, Strip, Blank, ValidOwner;
  }

  // ---------------------------------------------------------------- new versions

  /** The memory has the next version: itself, its vector and one more snapshot, and nothing else of
      its owner's tables. */
  ghost predicate Advanced(s: Store, t: Store, m: Memory, v: Vector, reason: string) {
    && OthersSame(s, t, m.id) && m.id in t.memories && t.memories[m.id] == m
    && m.id in t.vectors && t.vectors[m.id] == v
    && m.id in s.history && m.id in t.history && |t.history[m.id]| == |s.history[m.id]| + 1
    && t.history[m.id][..|s.history[m.id]|] == s.history[m.id]
    && Shows(t.history[m.id][|s.history[m.id]|], m) && t.history[m.id][|s.history[m.id]|].reason == reason
    && t.fingerprints == s.fingerprints && t.tombstones == s.tombstones
  }

  /** What no new version of a memory changes, and what each does. */
  ghost predicate SameMemory(was: Memory, m: Memory, now: Time) {
    && m.id == was.id && m.owner == was.owner && m.tenant == was.tenant && m.createdAt == was.createdAt
    && m.idempotencyKey == was.idempotencyKey && m.consent == was.consent
    && m.version == was.version + 1 && m.updatedAt == now
  }

  /** A content, if one is given, in its normal form; otherwise the one before. */
  ghost predicate ContentIs(m: Memory, given: Option<string>, was: Memory) {
    m.content == Normalise(if given.Some? then given.value else was.content)
  }

  ghost predicate FieldIs<T>(value: T, given: Option<T>, was: T) {
    (given.Some? ==> value == given.value) && (given.None? ==> value == was)
  }

  /** A memory that could be constructed has its content in normal form, so one that is not given stays
      as it is. */
  lemma ContentStays(m: Memory, was: Memory)
    requires ValidMemory(was) && ContentIs(m, None, was)
    ensures m.content == was.content
  {
    hide Normalise, Blank, Acceptable;
  }

  ghost predicate MayMove(a: MemoryState, b: MemoryState, related: bool) {
    a == b || (Edge(a, b) && (b == Superseded || b == Contradicted ==> related))
  }

  /** The fields of the next version are in range. */
  ghost predicate NextInRange(was: Memory, content: Option<string>, importance: Option<real>, confidence: Option<real>,
                              space: Option<string>, now: Time) {
    InRange(was.(content := if content.Some? then content.value else was.content,
                 importance := if importance.Some? then importance.value else was.importance,
                 confidence := if confidence.Some? then confidence.value else was.confidence,
                 space := if space.Some? then space else was.space, version := was.version + 1, updatedAt := now))
  }

  /** An evolved memory, field by field. */
  lemma EvolveOutcome(was: Memory, now: Time, c: Changes, reason: string, related: Option<Id>)
    ensures
      var d := Evolve(was, now, c, reason, related);
      && (d.Ok? <==> MayMove(was.state, if c.state.Some? then c.state.value else was.state, related.Some?)
                     && !Blank(reason) && NextInRange(was, c.content, c.importance, c.confidence, c.space, now))
      && (d.Ok? ==>
            var m := d.value;
            && SameMemory(was, m, now) && ContentIs(m, c.content, was)
                 && FieldIs(m.memoryType, c.memoryType, was.memoryType)
            && FieldIs(m.importance, c.importance, was.importance)
                 && FieldIs(m.confidence, c.confidence, was.confidence)
            && FieldIs(m.state, c.state, was.state) && FieldIs(m.provenance, c.provenance, was.provenance)
            && m.occurredAt == (if c.occurredAt.Some? then c.occurredAt else was.occurredAt)
            && m.space == (if c.space.Some? then c.space else was.space)
            && m.embedding == (if c.embedding.Some? then c.embedding else was.embedding))
  {
    ConstructOutcome(Patched(was, now, c));
    hide Construct, Normalise, Blank, Strip, Edge;
  }

  function Target(c: UpdateCommand): Option<Id> {
    if c.supersedes.Some? then c.supersedes else c.contradicts
  }

  /** The state an update asks for. */
  function WantedState(c: UpdateCommand, was: Memory): MemoryState {
    if c.supersedes.Some? then Superseded
    else if c.contradicts.Some? then Contradicted
    else if c.state.Some? then c.state.value
    else was.state
  }

  ghost predicate UpdateAllowed(s: Store, env: Env, c: UpdateCommand) {
    && ValidOwner(c.owner) && Owns(s, c.owner, None, c.memoryId) && !(c.supersedes.Some? && c.contradicts.Some?)
    && var was := s.memories[c.memoryId];
       && was.version == c.expectedVersion && !Blank(c.reason)
       && MayMove(was.state, WantedState(c, was), Target(c).Some?)
       && NextInRange(was, c.content, c.importance, c.confidence, c.space, env.now)
       && Embeddable(env.provider, Normalise(if c.content.Some? then c.content.value else was.content))
       && (Target(c).Some? ==>
             && Target(c).value != was.id && Owns(s, c.owner, None, Target(c).value)
             && RelationKey(c.owner, was.id, Target(c).value, if c.supersedes.Some? then Supersedes else Contradicts)
                !in s.relations)
  }

  /** The relations after an update that may have named a target. */
  ghost predicate Linked(s: Store, t: Store, c: UpdateCommand, now: Time) {
    if Target(c).None? then t.relations == s.relations
    else
      var kind := if c.supersedes.Some? then Supersedes else Contradicts;
      t.relations == s.relations[RelationKey(c.owner, c.memoryId, Target(c).value, kind) :=
                                 Relation(c.memoryId, Target(c).value, kind, c.owner, now)]
  }

  lemma EmbedOutcome(p: Provider, text: string)
    ensures Embed(p, text).Ok? <==> Embeddable(p, text)
    ensures Embeddable(p, text) ==> Embed(p, text) == Ok(p.embed(text).value)
  {
  }

  /** What carrying out a new version does to the tables. */
  lemma CommitAdvances(s: Store, e: Effect)
    requires e.Advance? && e.memory.id in s.memories && e.memory.id in s.history
    ensures Advanced(s, Commit(s, e), e.memory, e.vector, e.reason)
    ensures Commit(s,
        e).relations == (if e.link.Some? then s.relations[KeyOfRelation(e.link.value) := e.link.value] else s.relations)
    ensures e.settled.Some? ==> Commit(s, e).operations == s.operations[e.settled.value.key := e.settled.value.row]
    ensures e.settled.None? ==> Commit(s, e).operations == s.operations
  {
  }

  /** What an update under a new key comes to, the evolved memory given. */
  lemma UpdateDecision(s: Store, env: Env, c: UpdateCommand)
    requires Aligned(s) && !ClaimedBefore(s, c.owner, UpdateOp, c.key)
    ensures
      var d := DecideUpdate(s, env, c);
      && (d.Ok? ==> ValidOwner(c.owner) && Owns(s, c.owner, None, c.memoryId))
      && (ValidOwner(c.owner) && Owns(s, c.owner, None, c.memoryId) ==>
            var was := s.memories[c.memoryId];
            var m := Evolve(was, env.now, UpdateChanges(c, env), c.reason, Related(c));
            && (d.Ok? <==>
                  && was.version == c.expectedVersion && !(c.supersedes.Some? && c.contradicts.Some?)
                  && (Target(c).Some? ==> Target(c).value != was.id && Owns(s, c.owner, None, Target(c).value))
                  && m.Ok? && Embed(env.provider, m.value.content).Ok?
                  && (Target(c).Some? ==>
                        RelationKey(c.owner, m.value.id, Target(c).value, if c.supersedes.Some? then Supersedes
                            else Contradicts)
                        !in s.relations))
            && (d.Ok? ==>
                  && d.value.reply == Returned(m.value) && d.value.effect.Advance? && d.value.effect.memory == m.value
                  && d.value.effect.reason == c.reason
                  && Ok(d.value.effect.vector) == Embed(env.provider, m.value.content)
                  && d.value.effect.link == LinkOf(c, m.value.id, env.now)
                  && d.value.effect.settled ==
                     if Keyed(c.key)
                     then Some(Entry(OperationKey(c.owner, UpdateOp, c.key.value),
                                     Row(UpdateFingerprint(c), m.value.id, Some(m.value.version), "updated")))
                     else None))
  {
    hide Evolve, ValidOwner, Embed, CompleteHistory;
  }

  /** An update under a new key succeeds exactly when it is allowed, and otherwise changes nothing. */
  lemma UpdateAllowedIff(s: Store, env: Env, c: UpdateCommand)
    requires Aligned(s) && !ClaimedBefore(s, c.owner, UpdateOp, c.key)
    ensures Decide(s, env, Update(c)).Ok? <==> UpdateAllowed(s, env, c)
    ensures Decide(s, env, Update(c)).Err? ==> Apply(s, env, Update(c)) == s
  {
    UpdateDecision(s, env, c);
    hide DecideUpdate, Evolve, ValidOwner, Blank, NextInRange, Normalise, Edge, Embed, Embeddable;
    if Owns(s, c.owner, None, c.memoryId) {
      var was := s.memories[c.memoryId];
      var m := Evolve(was, env.now, UpdateChanges(c, env), c.reason, Related(c));
      EvolveOutcome(was, env.now, UpdateChanges(c, env), c.reason, Related(c));
      if m.Ok? {
        EmbedOutcome(env.provider, m.value.content);
      }
      hide ClaimedBefore, MayMove;
    }
  }

  /** Every field the command gives has that value, every other is as before, and the state is the one a
      named target asks for or else the one given. */
  ghost predicate UpdatedFields(was: Memory, m: Memory, c: UpdateCommand, env: Env) {
    && was.version == c.expectedVersion && SameMemory(was, m, env.now)
    && ContentIs(m, c.content, was) && FieldIs(m.memoryType, c.memoryType, was.memoryType)
    && FieldIs(m.importance, c.importance, was.importance) && FieldIs(m.confidence, c.confidence, was.confidence)
    && FieldIs(m.provenance, c.provenance, was.provenance) && m.state == WantedState(c, was)
    && m.occurredAt == (if c.occurredAt.Some? then c.occurredAt else was.occurredAt)
    && m.space == (if c.space.Some? then c.space else was.space) && m.embedding == Some(env.provider.profile)
  }

  /** Vector, snapshot, relation and ledger row follow. */
  ghost predicate UpdatedTables(s: Store, t: Store, m: Memory, c: UpdateCommand, env: Env) {
    && Embeddable(env.provider, m.content) && Advanced(s, t, m, env.provider.embed(m.content).value, c.reason)
    && Linked(s, t, c, env.now)
    && SettledIfKeyed(s, t, c.owner, UpdateOp, c.key, c.memoryId, Some(m.version), "updated")
  }

  lemma UpdateFields(s: Store, env: Env, c: UpdateCommand)
    requires Aligned(s) && !ClaimedBefore(s, c.owner, UpdateOp, c.key) && DecideUpdate(s, env, c).Ok?
    ensures Owns(s, c.owner, None, c.memoryId)
    ensures UpdatedFields(s.memories[c.memoryId], DecideUpdate(s, env, c).value.effect.memory, c, env)
  {
    UpdateDecision(s, env, c);
    EvolveOutcome(s.memories[c.memoryId], env.now, UpdateChanges(c, env), c.reason, Related(c));
    hide DecideUpdate, Evolve, ValidOwner, Blank, NextInRange, Normalise, Edge, MayMove, Embed, ClaimedBefore, Aligned;
  }

  lemma UpdateTables(s: Store, env: Env, c: UpdateCommand)
    requires Aligned(s) && !ClaimedBefore(s, c.owner, UpdateOp, c.key) && DecideUpdate(s, env, c).Ok?
    ensures
      var e := DecideUpdate(s, env, c).value.effect;
      DecideUpdate(s, env, c).value.reply == Returned(e.memory) && UpdatedTables(s, Commit(s, e), e.memory, c, env)
  {
    hide DecideUpdate, Evolve, ValidOwner, Embed, Embeddable, Advanced, Commit, ClaimedBefore, CompleteHistory,
        UpdateFingerprint;
    UpdateDecision(s, env, c);
    var e := DecideUpdate(s, env, c).value.effect;
    EvolveIsNextVersion(s.memories[c.memoryId], env.now, UpdateChanges(c, env), c.reason, Related(c));
    EmbedOutcome(env.provider, e.memory.content);
    CommitAdvances(s, e);
  }

  /** Each command has its own decision, and an error stores nothing. */
  lemma Dispatch(s: Store, env: Env, c: Command)
    ensures c.Update? ==> Decide(s, env, c) == DecideUpdate(s, env, c.update)
    ensures c.Confirm? ==> Decide(s, env, c) == DecideConfirm(s, env, c.confirm)
    ensures c.Pin? ==> Decide(s, env, c) == DecidePin(s, env, c.pin)
    ensures Apply(s, env, c) == if Decide(s, env, c).Ok? then Commit(s, Decide(s, env, c).value.effect) else s
  {
    hide DecideWrite, DecideCapture, DecideConfirm, DecidePin, DecideDiscard, DecideUpdate, DecideForget, DecideRelate,
      DecideImport, Commit;
  }

  /** What an update under a new key returns and stores. */
  lemma UpdateOutcome(s: Store, env: Env, c: UpdateCommand)
    requires Aligned(s) && !ClaimedBefore(s, c.owner, UpdateOp, c.key) && Decide(s, env, Update(c)).Ok?
    ensures Owns(s, c.owner, None, c.memoryId) && Decide(s, env, Update(c)).value.reply.Returned?
    ensures
      var m := Decide(s, env, Update(c)).value.reply.memory;
      UpdatedFields(s.memories[c.memoryId], m, c, env) && UpdatedTables(s, Apply(s, env, Update(c)), m, c, env)
  {
    hide *;
    Dispatch(s, env, Update(c));
    UpdateFields(s, env, c);
    UpdateTables(s, env, c);
  }

  ghost predicate ConfirmAllowed(s: Store, env: Env, c: ConfirmCommand) {
    && Authorised(c.scopes, "memory:write", c.tenant, c.owner, c.revoked)
         && Owns(s, c.owner, Some(c.tenant), c.memoryId)
    && var was := s.memories[c.memoryId];
       && was.version == c.expectedVersion && (was.state == Candidate || was.state == Stale)
       && MayMove(was.state, Confirmed, false) && !Blank(c.reason)
       && NextInRange(was, c.content, None, None, c.space, env.now)
       && Embeddable(env.provider, Normalise(if c.content.Some? then c.content.value else was.content))
  }

  /** The corrected content, type and space, and everything else as before. */
  ghost predicate ConfirmedFields(was: Memory, m: Memory, c: ConfirmCommand, env: Env) {
    && SameMemory(was, m, env.now) && m.state == Confirmed && m.embedding == Some(env.provider.profile)
    && ContentIs(m, c.content, was) && FieldIs(m.memoryType, c.memoryType, was.memoryType)
    && m.space == (if c.space.Some? then c.space else was.space)
    && m.importance == was.importance && m.confidence == was.confidence && m.occurredAt == was.occurredAt
    && m.provenance == was.provenance
  }

  ghost predicate ConfirmedTables(s: Store, t: Store, m: Memory, c: ConfirmCommand, env: Env) {
    && Embeddable(env.provider, m.content) && Advanced(s, t, m, env.provider.embed(m.content).value, c.reason)
    && t.relations == s.relations
    && Settled(s, t, OperationKey(c.owner, ConfirmOp, c.key), c.memoryId, Some(m.version), "confirmed")
  }

  lemma ConfirmAllowedIff(s: Store, env: Env, c: ConfirmCommand)
    requires Aligned(s) && OperationKey(c.owner, ConfirmOp, c.key) !in s.operations
    ensures DecideConfirm(s, env, c).Ok? <==> ConfirmAllowed(s, env, c)
  {
    ConfirmDecision(s, env, c);
    hide DecideConfirm, Evolve, ValidOwner, Blank, NextInRange, Normalise, Edge, Embed, Embeddable, CompleteHistory;
    if Owns(s, c.owner, Some(c.tenant), c.memoryId) {
      var was := s.memories[c.memoryId];
      var m := Evolve(was, env.now, ConfirmChanges(c, env), c.reason, None);
      EvolveOutcome(was, env.now, ConfirmChanges(c, env), c.reason, None);
      if m.Ok? {
        EmbedOutcome(env.provider, m.value.content);
      }
    }
  }

  lemma ConfirmFields(s: Store, env: Env, c: ConfirmCommand)
    requires Aligned(s) && OperationKey(c.owner, ConfirmOp, c.key) !in s.operations && DecideConfirm(s, env, c).Ok?
    ensures Owns(s, c.owner, Some(c.tenant), c.memoryId)
    ensures ConfirmedFields(s.memories[c.memoryId], DecideConfirm(s, env, c).value.effect.memory, c, env)
  {
    ConfirmDecision(s, env, c);
    EvolveOutcome(s.memories[c.memoryId], env.now, ConfirmChanges(c, env), c.reason, None);
    hide DecideConfirm, Evolve, ValidOwner, Blank, NextInRange, Normalise, Edge, MayMove, Embed, Aligned;
  }

  lemma ConfirmTables(s: Store, env: Env, c: ConfirmCommand)
    requires Aligned(s) && OperationKey(c.owner, ConfirmOp, c.key) !in s.operations && DecideConfirm(s, env, c).Ok?
    ensures
      var e := DecideConfirm(s, env, c).value.effect;
      DecideConfirm(s, env, c).value.reply == Returned(e.memory) && ConfirmedTables(s, Commit(s, e), e.memory, c, env)
  {
    hide DecideConfirm, Evolve, ValidOwner, Embed, Embeddable, Advanced, Commit, CompleteHistory, ConfirmFingerprint;
    ConfirmDecision(s, env, c);
    var e := DecideConfirm(s, env, c).value.effect;
    EvolveIsNextVersion(s.memories[c.memoryId], env.now, ConfirmChanges(c, env), c.reason, None);
    EmbedOutcome(env.provider, e.memory.content);
    CommitAdvances(s, e);
  }

  /** A confirm under a new key succeeds exactly when a candidate or stale memory may be confirmed;
      what it then returns and stores. */
  lemma ConfirmOutcome(s: Store, env: Env, c: ConfirmCommand)
    requires Aligned(s) && OperationKey(c.owner, ConfirmOp, c.key) !in s.operations
    ensures
      var d, t := Decide(s, env, Confirm(c)), Apply(s, env, Confirm(c));
      && (d.Ok? <==> ConfirmAllowed(s, env, c)) && (d.Err? ==> t == s)
      && (d.Ok? ==>
            && d.value.reply.Returned? && ConfirmedFields(s.memories[c.memoryId], d.value.reply.memory, c, env)
            && ConfirmedTables(s, t, d.value.reply.memory, c, env))
  {
    hide *;
    Dispatch(s, env, Confirm(c));
    ConfirmAllowedIff(s, env, c);
    if DecideConfirm(s, env, c).Ok? {
      ConfirmFields(s, env, c);
      ConfirmTables(s, env, c);
    }
  }

  lemma ConfirmDecision(s: Store, env: Env, c: ConfirmCommand)
    requires Aligned(s) && OperationKey(c.owner, ConfirmOp, c.key) !in s.operations
    ensures
      var d := DecideConfirm(s, env, c);
      && (d.Ok? ==> Owns(s, c.owner, Some(c.tenant), c.memoryId))
      && (Owns(s, c.owner, Some(c.tenant), c.memoryId) ==>
            var was := s.memories[c.memoryId];
            var m := Evolve(was, env.now, ConfirmChanges(c, env), c.reason, None);
            && (d.Ok? <==>
                  && Authorised(c.scopes, "memory:write", c.tenant, c.owner, c.revoked)
                  && was.version == c.expectedVersion && (was.state == Candidate || was.state == Stale)
                  && m.Ok? && Embed(env.provider, m.value.content).Ok?)
            && (d.Ok? ==>
                  && d.value.reply == Returned(m.value) && d.value.effect.Advance? && d.value.effect.memory == m.value
                  && d.value.effect.reason == c.reason && d.value.effect.link == None
                  && Ok(d.value.effect.vector) == Embed(env.provider, m.value.content)
                  && d.value.effect.settled ==
                     Some(Entry(OperationKey(c.owner, ConfirmOp, c.key),
                                Row(ConfirmFingerprint(c), m.value.id, Some(m.value.version), "confirmed")))))
  {
    hide Evolve, ValidOwner, Blank, Embed, CompleteHistory;
  }

  ghost predicate PinAllowed(s: Store, env: Env, c: PinCommand) {
    && Authorised(c.scopes, "memory:write", c.tenant, c.owner, c.revoked)
         && Owns(s, c.owner, Some(c.tenant), c.memoryId)
    && var was := s.memories[c.memoryId];
       && was.version == c.expectedVersion && (was.state == Confirmed || was.state == Pinned)
       && (was.state == (if c.pinned then Pinned else Confirmed)
           || (NextInRange(was, None, None, None, None, env.now) && Embeddable(env.provider, Normalise(was.content))))
  }

  /** The state alone is another; the descriptor stays, the vector is computed again. */
  ghost predicate PinnedFields(was: Memory, m: Memory, c: PinCommand, env: Env) {
    && SameMemory(was, m, env.now) && m.state == (if c.pinned then Pinned else Confirmed) && ContentIs(m, None, was)
    && m == was.(state := m.state, content := m.content, version := m.version, updatedAt := env.now)
  }

  ghost predicate PinnedTables(s: Store, t: Store, m: Memory, c: PinCommand, env: Env) {
    && Embeddable(env.provider, m.content)
    && Advanced(s, t, m, env.provider.embed(m.content).value, if c.pinned then "pinned" else "confirmed")
    && t.relations == s.relations
  }

  lemma PinAllowedIff(s: Store, env: Env, c: PinCommand)
    requires Aligned(s) && OperationKey(c.owner, PinOp, c.key) !in s.operations
    ensures DecidePin(s, env, c).Ok? <==> PinAllowed(s, env, c)
  {
    PinDecision(s, env, c);
    ReasonsAreText();
    hide DecidePin, Evolve, ValidOwner, Blank, NextInRange, Normalise, Embed, Embeddable, CompleteHistory;
    if Owns(s, c.owner, Some(c.tenant), c.memoryId) {
      var was := s.memories[c.memoryId];
      var m := Evolve(was, env.now, PinChanges(c), PinReason(c), None);
      EvolveOutcome(was, env.now, PinChanges(c), PinReason(c), None);
      if m.Ok? {
        EmbedOutcome(env.provider, m.value.content);
      }
    }
  }

  lemma PinMoves(s: Store, env: Env, c: PinCommand)
    requires Aligned(s) && OperationKey(c.owner, PinOp, c.key) !in s.operations && DecidePin(s, env, c).Ok?
    requires Owns(s, c.owner, Some(c.tenant), c.memoryId)
    requires s.memories[c.memoryId].state != if c.pinned then Pinned else Confirmed
    ensures
      var e := DecidePin(s, env, c).value.effect;
      && DecidePin(s, env, c).value.reply == Returned(e.memory)
           && PinnedFields(s.memories[c.memoryId], e.memory, c, env)
      && PinnedTables(s, Commit(s, e), e.memory, c, env)
  {
    PinDecision(s, env, c);
    var e := DecidePin(s, env, c).value.effect;
    EvolveOutcome(s.memories[c.memoryId], env.now, PinChanges(c), PinReason(c), None);
    EmbedOutcome(env.provider, e.memory.content);
    CommitAdvances(s, e);
    hide DecidePin, Evolve, ValidOwner, Blank, NextInRange, Normalise, MayMove, Embed, Embeddable, Advanced, Commit,
      CompleteHistory, PinFingerprint;
  }

  /** A pin or unpin under a new key succeeds exactly for a confirmed or pinned memory. It answers with
      the memory itself when there is nothing to change, and otherwise changes its state. */
  lemma PinOutcome(s: Store, env: Env, c: PinCommand)
    requires Aligned(s) && OperationKey(c.owner, PinOp, c.key) !in s.operations
    ensures
      var d, t := Decide(s, env, Pin(c)), Apply(s, env, Pin(c));
      var target := if c.pinned then Pinned else Confirmed;
      && (d.Ok? <==> PinAllowed(s, env, c)) && (d.Err? ==> t == s)
      && (d.Ok? ==>
            && d.value.reply.Returned?
            && var m, was := d.value.reply.memory, s.memories[c.memoryId];
               && (was.state == target ==> m == was && SameButLedger(s, t))
               && (was.state != target ==> PinnedFields(was, m, c, env) && PinnedTables(s, t, m, c, env)))
  {
    Dispatch(s, env, Pin(c));
    PinAllowedIff(s, env, c);
    PinDecision(s, env, c);
    hide DecidePin, PinnedFields, PinnedTables, Commit, Aligned, Decide, Apply, NextInRange, Evolve, Embed,
        ValidOwner, Blank;
    if DecidePin(s, env, c).Ok? {
      if s.memories[c.memoryId].state == (if c.pinned then Pinned else Confirmed) {
        CommitSettles(s, DecidePin(s, env, c).value.effect);
      } else {
        PinMoves(s, env, c);
      }
    }
  }

  /** Whether it changes anything or not, a pin completes its claim with the version it answers. */
  lemma PinSettlesClaim(s: Store, env: Env, c: PinCommand)
    requires Aligned(s) && OperationKey(c.owner, PinOp, c.key) !in s.operations && Decide(s, env, Pin(c)).Ok?
    ensures Decide(s, env, Pin(c)).value.reply.Returned?
    ensures
      var m := Decide(s, env, Pin(c)).value.reply.memory;
      Settled(s, Apply(s, env, Pin(c)), OperationKey(c.owner, PinOp, c.key), c.memoryId, Some(m.version),
              if c.pinned then "pinned" else "confirmed")
  {
    hide DecidePin, Decide, Apply, Commit, Evolve, Embed, ValidOwner, Blank, Advanced, PinFingerprint, CompleteHistory;
    Dispatch(s, env, Pin(c));
    PinDecision(s, env, c);
    var was := s.memories[c.memoryId];
    var e := DecidePin(s, env, c).value.effect;
    if was.state == (if c.pinned then Pinned else Confirmed) {
      CommitSettles(s, e);
    } else {
      EvolveIsNextVersion(was, env.now, PinChanges(c), PinReason(c), None);
      CommitAdvances(s, e);
    }
  }

  lemma CommitSettles(s: Store, e: Effect)
    requires e.Settle?
    ensures Commit(s, e) == s.(operations := s.operations[e.entry.key := e.entry.row])
  {
  }

  function PinChanges(c: PinCommand): Changes {
    Changes(None, None, None, None, Some(if c.pinned then Pinned else Confirmed), None, None, None, None)
  }

  function PinReason(c: PinCommand): string {
    if c.pinned then "pinned" else "unpinned"
  }

  lemma PinDecision(s: Store, env: Env, c: PinCommand)
    requires Aligned(s) && OperationKey(c.owner, PinOp, c.key) !in s.operations
    ensures
      var d := DecidePin(s, env, c);
      var status := if c.pinned then "pinned" else "confirmed";
      && (d.Ok? ==> Owns(s, c.owner, Some(c.tenant), c.memoryId))
      && (Owns(s, c.owner, Some(c.tenant), c.memoryId) ==>
            var was := s.memories[c.memoryId];
            var m := Evolve(was, env.now, PinChanges(c), PinReason(c), None);
            var still := was.state == if c.pinned then Pinned else Confirmed;
            && (d.Ok? <==>
                  && Authorised(c.scopes, "memory:write", c.tenant, c.owner, c.revoked)
                  && was.version == c.expectedVersion && (was.state == Confirmed || was.state == Pinned)
                  && (still || (m.Ok? && Embed(env.provider, m.value.content).Ok?)))
            && (d.Ok? && still ==>
                  && d.value.reply == Returned(was)
                  && d.value.effect == Settle(Entry(OperationKey(c.owner, PinOp, c.key),
                                                    Row(PinFingerprint(c), was.id, Some(was.version), status))))
            && (d.Ok? && !still ==>
                  && d.value.reply == Returned(m.value) && d.value.effect.Advance? && d.value.effect.memory == m.value
                  && d.value.effect.reason == status && d.value.effect.link == None
                  && Ok(d.value.effect.vector) == Embed(env.provider, m.value.content)
                  && d.value.effect.settled ==
                     Some(Entry(OperationKey(c.owner, PinOp, c.key),
                                Row(PinFingerprint(c), m.value.id, Some(m.value.version), status)))))
  {
    hide Evolve, ValidOwner, Blank, Embed, CompleteHistory;
  }

  lemma ReasonsAreText()
    ensures !Blank("pinned") && !Blank("unpinned")
  {
    assert !IsSpace("pinned"[0]) && !IsSpace("unpinned"[0]);
  }

  // ---------------------------------------------------------------- relations

  /** Relate succeeds exactly for two distinct memories of the owner that are not related this way yet,
      and adds exactly the relation from the source to the target. */
  lemma RelateOutcome(s: Store, env: Env, c: RelateCommand)
    ensures
      var d, t := Decide(s, env, Relate(c)), Apply(s, env, Relate(c));
      && (d.Ok? <==>
            && ValidOwner(c.owner) && c.kind.Some? && c.source != c.target
            && Owns(s, c.owner, None, c.source) && Owns(s, c.owner, None, c.target)
            && RelationKey(c.owner, c.source, c.target, c.kind.value) !in s.relations)
      && (d.Ok? ==>
            && d.value.reply == Reply.Linked(Relation(c.source, c.target, c.kind.value, c.owner, env.now))
            && t == s.(relations := s.relations[RelationKey(c.owner, c.source, c.target, c.kind.value) :=
                                                Relation(c.source, c.target, c.kind.value, c.owner, env.now)]))
      && (d.Err? ==> t == s)
  {
    hide ValidOwner;
  }

  // ---------------------------------------------------------------- keys and fingerprints

  /** A key that was claimed by a command with another fingerprint is a conflict, whatever else holds. */
  lemma ClaimConflicts(s: Store, key: OperationKey, f: Fingerprint)
    ensures key !in s.operations <==> Claim(s, key, f) == Ok(None)
    ensures Claim(s, key, f) == Err(IdempotencyConflict) <==> key in s.operations && s.operations[key].fingerprint != f
    ensures Claim(s, key, f).Ok? && key in s.operations <==>
              key in s.operations && s.operations[key].fingerprint == f && s.operations[key].status == Completed
    ensures Claim(s, key, f).Ok? && key in s.operations ==> Claim(s, key, f) == Ok(Some(s.operations[key]))
  {
  }

  /** Two commands have the same fingerprint exactly when they ask for the same thing. */
  lemma UpdatesAlike(a: UpdateCommand, b: UpdateCommand)
    ensures UpdateFingerprint(a) == UpdateFingerprint(b) <==>
              && a.owner == b.owner && a.memoryId == b.memoryId && a.expectedVersion == b.expectedVersion
              && a.content == b.content && a.memoryType == b.memoryType && a.importance == b.importance
              && a.confidence == b.confidence && a.state == b.state && a.occurredAt == b.occurredAt
                   && a.space == b.space
              && a.provenance == b.provenance && a.supersedes == b.supersedes && a.contradicts == b.contradicts
              && a.reason == b.reason
  {
  }

  lemma ConfirmsAlike(a: ConfirmCommand, b: ConfirmCommand)
    ensures ConfirmFingerprint(a) == ConfirmFingerprint(b) <==>
              && a.memoryId == b.memoryId && a.expectedVersion == b.expectedVersion && a.content == b.content
              && a.memoryType == b.memoryType && a.space == b.space && a.reason == b.reason
  {
  }

  lemma WritesAlike(a: WriteCommand, b: WriteCommand)
    ensures WriteFingerprint(a) == WriteFingerprint(b) <==>
              && a.content == b.content && a.memoryType == b.memoryType && a.importance == b.importance
              && a.confidence == b.confidence && a.space == b.space && a.occurredAt == b.occurredAt
              && a.provenance == b.provenance
  {
  }

  lemma CapturesAlike(a: CaptureCommand, b: CaptureCommand)
    ensures CaptureFingerprint(a) == CaptureFingerprint(b) <==>
              && a.tenant == b.tenant && a.connection == b.connection && a.content == b.content
              && a.memoryType == b.memoryType && a.space == b.space && a.importance == b.importance
              && a.confidence == b.confidence && a.provenance == b.provenance && a.consent == b.consent
  {
  }
}
