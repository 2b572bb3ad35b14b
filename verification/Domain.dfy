/** The memory aggregate of src/omp/domain: values, construction rules and the lifecycle graph.

    Instants are integers on one UTC axis, identifiers are naturals in the order of their
    canonical text, and importance and confidence are reals. */
module Domain {

  datatype Option<+T> = None | Some(value: T)

  function OrElse<T>(o: Option<T>, d: T): T {
    if o.Some? then o.value else d
  }

  /** The stable error codes of src/omp/domain/errors.py that these operations raise, plus
      three failures outside them: a provider that raises, a lookup whose write key has no holder,
      and an import record that reaches the repository without its vector. */
  datatype Error =
    | ValidationError | NotFound | VersionConflict | InvalidTransition
    | IdempotencyConflict | IdempotencyInProgress | ImportConflict | ProfileMismatch
    | RelationConflict | ConsentRequired | CaptureDisabled | ConnectionRevoked
    | ScopeDenied | SpaceForbidden | RestoreBlocked
    | ProviderFailure | MissingHolder | UnpreparedRecord

  datatype Result<+T> = Ok(value: T) | Err(error: Error) {
    predicate IsFailure() { Err? }
    function PropagateFailure<U>(): Result<U> requires Err? { Err(error) }
    function Extract(): T requires Ok? { value }
  }

  /** `Check(c, e)` is the source's `if not c: raise e`. */
  function Check(condition: bool, error: Error): Result<()> {
    if condition then Ok(()) else Err(error)
  }

  function Clamp(x: real): real {
    if x < 0.0 then 0.0 else if x > 1.0 then 1.0 else x
  }

  type Id = nat
  type Time = int
  type Vector = seq<real>

  // ---------------------------------------------------------------- text

  /** The characters on which `str.split` and `str.strip` act. */
  predicate IsSpace(c: char) {
    var n := c as int;
    || 0x09 <= n <= 0x0d || 0x1c <= n <= 0x20 || n == 0x85 || n == 0xa0 || n == 0x1680
    || 0x2000 <= n <= 0x200a || n == 0x2028 || n == 0x2029 || n == 0x202f || n == 0x205f || n == 0x3000
  }

  predicate Blank(s: string) {
    forall i :: 0 <= i < |s| ==> IsSpace(s[i])
  }

  function TrimLeft(s: string): string {
    if s != "" && IsSpace(s[0]) then TrimLeft(s[1..]) else s
  }

  function TrimRight(s: string): string {
    if s != "" && IsSpace(s[|s| - 1]) then TrimRight(s[..|s| - 1]) else s
  }

  function Strip(s: string): string {
    TrimRight(TrimLeft(s))
  }

  predicate IsWord(w: string) {
    w != "" && forall i :: 0 <= i < |w| ==> !IsSpace(w[i])
  }

  function FirstWord(s: string): (w: string)
    ensures |w| <= |s| && w == s[..|w|]
    ensures forall i :: 0 <= i < |w| ==> !IsSpace(w[i])
    ensures |w| < |s| ==> IsSpace(s[|w|])
  {
    if s == "" || IsSpace(s[0]) then "" else [s[0]] + FirstWord(s[1..])
  }

  function Words(s: string): (ws: seq<string>)
    ensures forall i :: 0 <= i < |ws| ==> IsWord(ws[i])
    ensures ws == [] <==> Blank(s)
    decreases |s|
  {
    if s == "" then []
    else if IsSpace(s[0]) then
      assert Blank(s) <==> Blank(s[1..]) by {
        assert s == [s[0]] + s[1..];
      }
      Words(s[1..])
    else [FirstWord(s)] + Words(s[|FirstWord(s)|..])
  }

  function Join(ws: seq<string>): string {
    if |ws| == 0 then "" else if |ws| == 1 then ws[0] else ws[0] + " " + Join(ws[1..])
  }

  /** `" ".join(content.split())`. */
  function Normalise(s: string): string {
    Join(Words(s))
  }

  lemma {:induction false} FirstWordOf(w: string, rest: string)
    requires IsWord(w) && (rest == "" || IsSpace(rest[0]))
    ensures FirstWord(w + rest) == w
  {
    assert w + rest == [w[0]] + (w[1..] + rest);
    if |w| == 1 {
      assert w[1..] + rest == rest;
    } else {
      FirstWordOf(w[1..], rest);
      assert (w + rest)[1..] == w[1..] + rest;
    }
  }

  lemma WordsStep(w: string, rest: string)
    requires IsWord(w) && (rest == "" || IsSpace(rest[0]))
    ensures Words(w + rest) == [w] + Words(rest)
  {
    FirstWordOf(w, rest);
    assert (w + rest)[|w|..] == rest;
  }

  lemma {:induction false} WordsOfJoin(ws: seq<string>)
    requires forall i :: 0 <= i < |ws| ==> IsWord(ws[i])
    ensures Words(Join(ws)) == ws
  {
    if |ws| == 1 {
      WordsStep(ws[0], "");
      assert ws[0] + "" == ws[0];
    } else if |ws| > 1 {
      var rest := " " + Join(ws[1..]);
      WordsOfJoin(ws[1..]);
      assert rest[1..] == Join(ws[1..]);
      assert Words(rest) == ws[1..];
      WordsStep(ws[0], rest);
      assert Join(ws) == ws[0] + rest;
    }
  }

  /** Normalising is idempotent, so rebuilding a stored memory never changes its content. */
  lemma NormaliseIdempotent(s: string)
    ensures Normalise(Normalise(s)) == Normalise(s)
    ensures Blank(Normalise(s)) <==> Blank(s)
  {
    WordsOfJoin(Words(s));
  }

  // ---------------------------------------------------------------- values

  datatype MemoryType =
    | Fact | Preference | Decision | Insight | Hypothesis | Lesson | Goal | ProjectContext
    | Concept | Relationship | OpenQuestion | MentalNote

  datatype MemoryState =
    | Candidate | Confirmed | Pinned | Stale | Active | Superseded | Contradicted | Archived

  datatype RelationType = Supports | Contradicts | DerivedFrom | RelatedTo | Supersedes | AppliesTo

  datatype SourceType = FromUser | FromAgent | FromConversation | FromImport | FromSystem | FromUnknown

  datatype ConsentMode = Manual | Assisted | Automatic | LegacyUnverified

  datatype ConsentReason =
    | UserRequestedMemory | UserConfirmedInbox | ConnectionPolicyAutomatic | ImportAuthorized

  datatype Provenance = Provenance(
    sourceType: SourceType, capturedAt: Time, sourceId: Option<string>, sourceModel: Option<string>,
    evidence: seq<string>, sourceClient: Option<string>, sourceConnectionId: Option<string>,
    conversationId: Option<string>, messageId: Option<string>)

  datatype Consent = Consent(
    mode: ConsentMode, consentId: string, reason: ConsentReason, policyVersion: string, grantedAt: Time)

  /** An embedding profile and the descriptor stored with a memory carry the same four fields. */
  datatype Descriptor = Descriptor(profileId: string, profileVersion: string, dimension: nat, metric: string)

  datatype Memory = Memory(
    id: Id, owner: string, content: string, memoryType: MemoryType, importance: real, confidence: real,
    state: MemoryState, version: int, createdAt: Time, updatedAt: Time, occurredAt: Option<Time>,
    space: Option<string>, provenance: Provenance, embedding: Option<Descriptor>,
    idempotencyKey: Option<string>, tenant: Option<string>, consent: Option<Consent>)

  datatype MemoryVersion = MemoryVersion(
    memoryId: Id, version: int, content: string, memoryType: MemoryType, state: MemoryState,
    importance: real, confidence: real, space: Option<string>, occurredAt: Option<Time>,
    provenance: Provenance, changedAt: Time, reason: string, consent: Option<Consent>)

  datatype Relation = Relation(source: Id, target: Id, kind: RelationType, owner: string, createdAt: Time)

  // ---------------------------------------------------------------- construction

  const MAX_TEXT := 256
  const MAX_CONTENT := 100000

  predicate ValidOwner(owner: string) {
    !Blank(owner) && |Strip(owner)| <= MAX_TEXT
  }

  predicate ValidLabel(text: Option<string>) {
    text.None? || ValidOwner(text.value)
  }

  predicate UnitInterval(x: real) {
    0.0 <= x <= 1.0
  }

  /** What `__post_init__` demands once the content is normalised. */
  predicate Acceptable(m: Memory) {
    && ValidOwner(m.owner) && ValidLabel(m.tenant)
    && !Blank(m.content) && |m.content| <= MAX_CONTENT
    && UnitInterval(m.importance) && UnitInterval(m.confidence)
    && 1 <= m.version && m.createdAt <= m.updatedAt
    && ValidLabel(m.space) && ValidLabel(m.idempotencyKey)
  }

  /** Building a memory value: content is normalised, then every field is validated. */
  function Construct(m: Memory): Result<Memory> {
    var built := m.(content := Normalise(m.content));
    if !Blank(m.content) && Acceptable(built) then Ok(built) else Err(ValidationError)
  }

  /** A memory value that exists: building it again gives the same value. */
  ghost predicate ValidMemory(m: Memory) {
    Construct(m) == Ok(m)
  }

  lemma ConstructedIsValid(m: Memory)
    requires Construct(m).Ok?
    ensures ValidMemory(Construct(m).value)
  {
    NormaliseIdempotent(m.content);
  }

  predicate ValidRelation(r: Relation) {
    ValidOwner(r.owner) && r.source != r.target
  }

  function Snapshot(m: Memory, reason: string): MemoryVersion {
    MemoryVersion(m.id, m.version, m.content, m.memoryType, m.state, m.importance, m.confidence,
                  m.space, m.occurredAt, m.provenance, m.updatedAt, reason, m.consent)
  }

  /** The memory as it stood at one of its snapshots: identity fields and the embedding
      descriptor come from the current value, everything else from the snapshot. */
  function Past(m: Memory, v: MemoryVersion): Memory {
    m.(content := v.content, memoryType := v.memoryType, importance := v.importance,
       confidence := v.confidence, state := v.state, version := v.version,
       updatedAt := v.changedAt, occurredAt := v.occurredAt, space := v.space,
       provenance := v.provenance)
  }

  function Rebuild(m: Memory, v: MemoryVersion): Result<Memory> {
    Construct(Past(m, v))
  }

  // ---------------------------------------------------------------- lifecycle

  /** The allowed changes of state. */
  predicate Edge(a: MemoryState, b: MemoryState) {
    match a
    case Candidate => b in {Confirmed, Pinned}
    case Confirmed => b in {Pinned, Active, Stale, Superseded, Contradicted, Archived}
    case Pinned => b in {Confirmed, Active, Stale, Superseded, Contradicted, Archived}
    case Stale => b in {Confirmed, Pinned}
    case Active => b in {Superseded, Contradicted, Archived}
    case Contradicted => b in {Active, Confirmed}
    case Archived => b in {Active, Confirmed}
    case Superseded => false
  }

  function AssertTransition(current: MemoryState, target: MemoryState, related: Option<Id>): Result<()> {
    if target == current then Ok(())
    else if !Edge(current, target) then Err(InvalidTransition)
    else if target in {Superseded, Contradicted} && related.None? then Err(InvalidTransition)
    else Ok(())
  }

  /** The optional keyword arguments of `Memory.evolve`; `None` leaves the field as it is. */
  datatype Changes = Changes(
    content: Option<string>, memoryType: Option<MemoryType>, importance: Option<real>,
    confidence: Option<real>, state: Option<MemoryState>, occurredAt: Option<Time>,
    space: Option<string>, provenance: Option<Provenance>, embedding: Option<Descriptor>)

  function Patched(m: Memory, now: Time, c: Changes): Memory {
    m.(content := OrElse(c.content, m.content),
       memoryType := OrElse(c.memoryType, m.memoryType),
       importance := OrElse(c.importance, m.importance),
       confidence := OrElse(c.confidence, m.confidence),
       state := OrElse(c.state, m.state),
       occurredAt := if c.occurredAt.Some? then c.occurredAt else m.occurredAt,
       space := if c.space.Some? then c.space else m.space,
       provenance := OrElse(c.provenance, m.provenance),
       embedding := if c.embedding.Some? then c.embedding else m.embedding,
       version := m.version + 1,
       updatedAt := now)
  }

  function Evolve(m: Memory, now: Time, c: Changes, reason: string, related: Option<Id>): Result<Memory> {
    var _ :- AssertTransition(m.state, OrElse(c.state, m.state), related);
    var _ :- Check(!Blank(reason), ValidationError);
    Construct(Patched(m, now, c))
  }

  /** Identity survives every change; the other fields may differ. */
  ghost predicate SameIdentity(a: Memory, b: Memory) {
    && a.id == b.id && a.owner == b.owner && a.tenant == b.tenant && a.createdAt == b.createdAt
    && a.idempotencyKey == b.idempotencyKey && a.consent == b.consent
  }

  /** `b` is a legal next version of `a`. */
  ghost predicate NextVersion(a: Memory, b: Memory) {
    && SameIdentity(a, b) && b.version == a.version + 1
    && (a.state == b.state || Edge(a.state, b.state))
  }

  lemma EvolveIsNextVersion(m: Memory, now: Time, c: Changes, reason: string, related: Option<Id>)
    requires Evolve(m, now, c, reason, related).Ok?
    ensures
      var b := Evolve(m, now, c, reason, related).value;
      && NextVersion(m, b)
      && b.updatedAt == now && b.state == OrElse(c.state, m.state)
      && (b.state != m.state && b.state in {Superseded, Contradicted} ==> related.Some?)
  {
  }

  lemma EvolveIsValid(m: Memory, now: Time, c: Changes, reason: string, related: Option<Id>)
    requires Evolve(m, now, c, reason, related).Ok?
    ensures ValidMemory(Evolve(m, now, c, reason, related).value)
  {
    ConstructedIsValid(Patched(m, now, c));
  }

  /** Rebuilding from a snapshot of `past` gives `past` back, up to the embedding descriptor. */
  lemma RebuildRestores(past: Memory, reason: string, current: Memory)
    requires ValidMemory(past) && SameIdentity(past, current)
    ensures Rebuild(current, Snapshot(past, reason)) == Ok(past.(embedding := current.embedding))
  {
    var back := past.(embedding := current.embedding);
    assert Past(current, Snapshot(past, reason)) == back;
    assert Normalise(past.content) == past.content;
  }
}
