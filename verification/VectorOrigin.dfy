/** Which text a stored vector embeds. Write and capture embed the text they were given; every
    later version embeds the normalised content. */
module VectorOrigin {
  import opened Domain
  import opened MemoryStore
  import opened StoreInvariants

  type Embedder = string -> Option<Vector>

  /** `v` embeds a text that normalises to the content, and from version 2 on the content itself. */
  ghost predicate Rooted(embed: Embedder, m: Memory, v: Vector) {
    exists text :: embed(text) == Some(v) && Normalise(text) == m.content && (m.version > 1 ==> text == m.content)
  }

  ghost predicate AllRooted(s: Store, embed: Embedder) {
    forall id :: id in s.memories && id in s.vectors ==> Rooted(embed, s.memories[id], s.vectors[id])
  }

  ghost predicate EffectRooted(e: Effect, embed: Embedder) {
    e.Create? || e.Advance? ==> Rooted(embed, e.memory, e.vector)
  }

  /** A vector of the content itself is rooted at any version. */
  lemma OwnContent(embed: Embedder, m: Memory, v: Vector)
    requires ValidMemory(m) && embed(m.content) == Some(v)
    ensures Rooted(embed, m, v)
  {
  }

  lemma CreationRooted(embed: Embedder, draft: Memory, v: Vector)
    requires Construct(draft).Ok? && draft.version == 1 && embed(draft.content) == Some(v)
    ensures Rooted(embed, Construct(draft).value, v)
  {
    hide Acceptable, Blank, Normalise;
    assert Construct(draft).value.content == Normalise(draft.content);
  }

  lemma WriteRooted(s: Store, env: Env, c: WriteCommand)
    requires DecideWrite(s, env, c).Ok?
    ensures EffectRooted(DecideWrite(s, env, c).value.effect, env.provider.embed)
  {
    hide Construct, Bound, Rooted;
    var e := DecideWrite(s, env, c).value.effect;
    if e.Create? {
      CreationRooted(env.provider.embed, Draft(c, env), e.vector);
    }
  }

  lemma CaptureRooted(s: Store, env: Env, c: CaptureCommand)
    requires DecideCapture(s, env, c).Ok?
    ensures EffectRooted(DecideCapture(s, env, c).value.effect, env.provider.embed)
  {
    hide Construct, Bound, CaptureAllowed, Rooted;
    var e := DecideCapture(s, env, c).value.effect;
    if e.Create? {
      CreationRooted(env.provider.embed, CaptureDraft(c, env), e.vector);
    }
  }

  lemma ConfirmRooted(s: Store, env: Env, c: ConfirmCommand)
    requires DecideConfirm(s, env, c).Ok?
    ensures EffectRooted(DecideConfirm(s, env, c).value.effect, env.provider.embed)
  {
    hide Evolve, MutationAllowed, GetVersion, ValidMemory, Rooted;
    var e := DecideConfirm(s, env, c).value.effect;
    if e.Advance? {
      EvolveIsValid(s.memories[c.memoryId], env.now, ConfirmChanges(c, env), c.reason, None);
      OwnContent(env.provider.embed, e.memory, e.vector);
    }
  }

  lemma PinRooted(s: Store, env: Env, c: PinCommand)
    requires DecidePin(s, env, c).Ok?
    ensures EffectRooted(DecidePin(s, env, c).value.effect, env.provider.embed)
  {
    hide Evolve, MutationAllowed, GetVersion, ValidMemory, Rooted;
    var e := DecidePin(s, env, c).value.effect;
    if e.Advance? {
      var changes := Changes(None, None, None, None, Some(PinTarget(c)), None, None, None, None);
      EvolveIsValid(s.memories[c.memoryId], env.now, changes, if c.pinned then "pinned" else "unpinned", None);
      OwnContent(env.provider.embed, e.memory, e.vector);
    }
  }

  lemma UpdateRooted(s: Store, env: Env, c: UpdateCommand)
    requires DecideUpdate(s, env, c).Ok?
    ensures EffectRooted(DecideUpdate(s, env, c).value.effect, env.provider.embed)
  {
    hide Evolve, RelatedExists, GetVersion, ValidMemory, Rooted;
    var e := DecideUpdate(s, env, c).value.effect;
    if e.Advance? {
      EvolveIsValid(s.memories[c.memoryId], env.now, UpdateChanges(c, env), c.reason, Related(c));
      OwnContent(env.provider.embed, e.memory, e.vector);
    }
  }

  lemma DecisionRooted(s: Store, env: Env, c: Command)
    requires Decide(s, env, c).Ok? && !c.Import?
    ensures EffectRooted(Decide(s, env, c).value.effect, env.provider.embed)
  {
    hide DecideWrite, DecideCapture, DecideConfirm, DecidePin, DecideUpdate;
    match c
    case Write(w) => WriteRooted(s, env, w);
    case Capture(w) => CaptureRooted(s, env, w);
    case Confirm(w) => ConfirmRooted(s, env, w);
    case Pin(w) => PinRooted(s, env, w);
    case Update(w) => UpdateRooted(s, env, w);
    case _ =>
  }

  lemma EffectKeepsRooted(s: Store, e: Effect, embed: Embedder)
    requires Enabled(s, e) && !e.Load? && AllRooted(s, embed) && EffectRooted(e, embed)
    ensures AllRooted(Commit(s, e), embed)
  {
    hide Rooted;
  }

  /** A run without imports whose providers embed alike. */
  ghost predicate SteadyProvider(steps: seq<Step>, embed: Embedder) {
    forall i :: 0 <= i < |steps| ==> !steps[i].command.Import? && steps[i].env.provider.embed == embed
  }

  /** In every store such a run reaches, each vector embeds a text that normalises to its memory's
      content, and the content itself once the memory has been changed. */
  lemma {:induction false} VectorsAreRooted(steps: seq<Step>, embed: Embedder)
    requires LegalRun(EMPTY, steps) && SteadyProvider(steps, embed)
    ensures AllRooted(Run(EMPTY, steps), embed)
    decreases |steps|
  {
    if steps != [] {
      hide Inv, LegalRun, LegalStep, Decide, Enabled, AllRooted, EffectRooted, Commit;
      var rest, last := steps[..|steps| - 1], steps[|steps| - 1];
      LegalPrefix(EMPTY, steps);
      EmptyInv();
      ReachableInv(EMPTY, rest);
      VectorsAreRooted(rest, embed);
      var mid := Run(EMPTY, rest);
      if Decide(mid, last.env, last.command).Ok? {
        DecisionEnabled(mid, last);
        OnlyImportsLoad(mid, last.env, last.command);
        DecisionRooted(mid, last.env, last.command);
        EffectKeepsRooted(mid, Decide(mid, last.env, last.command).value.effect, embed);
      }
    }
  }

  /** So under an embedder that white space does not move, no vector is ever out of date. */
  lemma VectorsAreCurrent(steps: seq<Step>, embed: Embedder, id: Id)
    requires LegalRun(EMPTY, steps) && SteadyProvider(steps, embed)
    requires forall text :: embed(text) == embed(Normalise(text))
    requires id in Run(EMPTY, steps).memories
    ensures id in Run(EMPTY, steps).vectors
    ensures embed(Run(EMPTY, steps).memories[id].content) == Some(Run(EMPTY, steps).vectors[id])
  {
    hide LegalRun, Run, Normalise;
    EmptyInv();
    ReachableInv(EMPTY, steps);
    VectorsAreRooted(steps, embed);
    var s := Run(EMPTY, steps);
    assert Rooted(embed, s.memories[id], s.vectors[id]);
  }

  /** Otherwise a write may store a vector that is not its content's: it stores the content's own
      vector exactly when the given text and its normal form embed alike. */
  lemma WriteVectorIsCurrent(s: Store, env: Env, c: WriteCommand)
    requires DecideWrite(s, env, c).Ok? && DecideWrite(s, env, c).value.effect.Create?
    ensures
      var e := DecideWrite(s, env, c).value.effect;
      env.provider.embed(e.memory.content) == Some(e.vector) <==>
          env.provider.embed(Normalise(c.content)) == env.provider.embed(c.content)
  {
    hide Bound, Acceptable, Blank, Normalise;
  }

  /** The same for a capture. */
  lemma CaptureVectorIsCurrent(s: Store, env: Env, c: CaptureCommand)
    requires DecideCapture(s, env, c).Ok? && DecideCapture(s, env, c).value.effect.Create?
    ensures
      var e := DecideCapture(s, env, c).value.effect;
      env.provider.embed(e.memory.content) == Some(e.vector) <==>
          env.provider.embed(Normalise(c.content)) == env.provider.embed(c.content)
  {
    hide Bound, CaptureAllowed, Acceptable, Blank, Normalise;
  }

  lemma TwoSpaces()
    ensures Normalise("a  b") == "a b" && !Blank("a  b") && !Blank("a b")
  {
    var double, single, last := "a" + "  b", "  b", "b";
    assert double == "a  b" && single[1..] == " b" && " b"[1..] == last && last + "" == last;
    WordsStep(last, "");
    assert Words("") == [];
    assert Words(single) == [last];
    WordsStep("a", single);
    assert ["a", last][1..] == [last];
    assert !IsSpace("a  b"[0]) && !IsSpace("a b"[0]);
  }

  lemma PlainOwner()
    ensures ValidOwner("owner")
  {
    assert !IsSpace("owner"[0]) && !IsSpace("owner"[4]);
  }

  /** A text with a repeated space, embedded by its length: the stored vector is not the content's. */
  lemma LengthEmbedderShowsIt(env: Env, c: WriteCommand)
    requires env.provider.embed == ((text: string) => Some([|text| as real])) && env.provider.profile.dimension == 1
    requires c.content == "a  b" && c.owner == "owner" && c.key.None? && c.tenant.None? && c.space.None?
    requires UnitInterval(c.importance) && UnitInterval(c.confidence)
    ensures
      var s := Apply(EMPTY, env, Write(c));
      && env.freshId in s.memories && s.memories[env.freshId].content == "a b"
      && env.provider.embed(s.memories[env.freshId].content) != Some(s.vectors[env.freshId])
  {
    TwoSpaces();
    PlainOwner();
    hide Normalise, Blank, ValidOwner, Bound;
    assert DecideWrite(EMPTY, env, c).Ok?;
    hide DecideWrite;
  }
}
