/** A keyed write or capture creates at most one memory while that memory lives, and its repetition
    answers that memory. */
module KeyedWrites {
  import opened Domain
  import opened MemoryStore
  import opened StoreInvariants
  import opened Portability
  import opened ReplayStability

  /** The write key of a keyed write or capture. */
  function KeyOf(c: Command): Option<WriteKey> {
    match c
    case Write(w) => if w.key.Some? && w.key.value != "" then Some(WriteKey(w.owner, w.key.value)) else None
    case Capture(w) => Some(WriteKey(w.owner, w.key))
    case _ => None
  }

  function PrintOf(c: Command): Option<Fingerprint> {
    match c
    case Write(w) => Some(WriteFingerprint(w))
    case Capture(w) => Some(CaptureFingerprint(w))
    case _ => None
  }

  /** `id` is the one live memory under the key, which is bound to this fingerprint. */
  ghost predicate Booked(s: Store, w: WriteKey, f: Fingerprint, id: Id) {
    && w in s.fingerprints && s.fingerprints[w] == f && id in s.memories && Holds(s.memories[id], w)
    && forall other :: other in s.memories && Holds(s.memories[other], w) ==> other == id
  }

  /** What a creation books. */
  lemma CreationBooks(s: Store, step: Step)
    requires Inv(s) && KeysExact(s) && LegalStep(s, step) && KeyOf(step.command).Some?
    requires Decide(s, step.env, step.command).Ok? && Decide(s, step.env, step.command).value.effect.Create?
    ensures
      var t := Apply(s, step.env, step.command);
      Booked(t, KeyOf(step.command).value, PrintOf(step.command).value,
             Decide(s, step.env, step.command).value.effect.memory.id)
  {
    var e := Decide(s, step.env, step.command).value.effect;
    CreationKeyed(s, step.env, step.command);
    DecisionEnabled(s, step);
    hide Decide, Inv, LegalStep, Construct, Enabled;
    CreateBooks(s, e, KeyOf(step.command).value);
  }

  lemma CreationKeyed(s: Store, env: Env, c: Command)
    requires KeyOf(c).Some? && Decide(s, env, c).Ok? && Decide(s, env, c).value.effect.Create?
    ensures
      var e := Decide(s, env, c).value.effect;
      && Holds(e.memory, KeyOf(c).value) && e.fingerprint == PrintOf(c).value
      && KeyOf(c).value !in s.fingerprints
  {
    hide Acceptable, Blank, Normalise, Embed, CaptureAllowed;
  }

  lemma CreateBooks(s: Store, e: Effect, w: WriteKey)
    requires KeysExact(s) && e.Create? && Holds(e.memory, w) && w !in s.fingerprints
    ensures Booked(Commit(s, e), w, e.fingerprint, e.memory.id)
  {
  }

  /** An effect other than a load keeps a booking while the memory lives. */
  lemma EffectKeepsBooked(s: Store, e: Effect, w: WriteKey, f: Fingerprint, id: Id)
    requires Enabled(s, e) && !e.Load? && Booked(s, w, f, id) && id in Commit(s, e).memories
    requires forall k :: k in s.memories ==> s.memories[k].id == k
    ensures Booked(Commit(s, e), w, f, id)
  {
    hide LinkOpen, Evidenced, EntryOpen, Attach, Post, Detach;
  }

  lemma StepKeepsBooked(s: Store, step: Step, w: WriteKey, f: Fingerprint, id: Id)
    requires Inv(s) && LegalStep(s, step) && !step.command.Import? && Booked(s, w, f, id)
    requires id in Apply(s, step.env, step.command).memories
    ensures Booked(Apply(s, step.env, step.command), w, f, id)
  {
    var d := Decide(s, step.env, step.command);
    if d.Ok? {
      AlignedOf(s);
      DecisionEnabled(s, step);
      OnlyImportsLoad(s, step.env, step.command);
      hide Decide, Inv, LegalStep, Enabled, Booked, CompleteHistory;
      EffectKeepsBooked(s, d.value.effect, w, f, id);
    }
  }

  lemma {:induction false} RunKeepsBooked(s: Store, steps: seq<Step>, w: WriteKey, f: Fingerprint, id: Id)
    requires Inv(s) && LegalRun(s, steps) && ImportFree(steps) && Booked(s, w, f, id) && StaysLive(s, steps, id)
    ensures Inv(Run(s, steps)) && Booked(Run(s, steps), w, f, id)
    decreases |steps|
  {
    ReachableInv(s, steps);
    if steps != [] {
      hide Inv, LegalRun, Apply, Booked, StaysLive, ImportFree, LegalStep;
      var rest := steps[..|steps| - 1];
      LegalPrefix(s, steps);
      StaysLivePrefix(s, steps, id);
      ImportFreePrefix(steps);
      RunKeepsBooked(s, rest, w, f, id);
      StepKeepsBooked(Run(s, rest), steps[|steps| - 1], w, f, id);
    }
  }

  /** While a key is booked, no write or capture under it changes the store: one with the same
      fingerprint that passes the checks before the lookup answers the live holder, and any other is
      an error. */
  lemma BookedKeyCreatesNothing(s: Store, env: Env, c: Command, f: Fingerprint, id: Id)
    requires KeyOf(c).Some? && Booked(s, KeyOf(c).value, f, id)
    ensures Apply(s, env, c) == s
    ensures Decide(s, env, c).Ok? ==> Decide(s, env, c) == Ok(Outcome(Nothing, Existing)) && PrintOf(c) == Some(f)
    ensures c.Write? && ValidOwner(c.write.owner) && PrintOf(c) == Some(f) ==> Decide(s, env, c).Ok?
    ensures c.Capture? && CaptureAllowed(c.capture).Ok? && PrintOf(c) == Some(f) ==> Decide(s, env, c).Ok?
  {
    hide Embed, Construct, CaptureAllowed, ValidOwner;
    assert HasHolder(s, KeyOf(c).value);
  }

  /** The checks before the lookup do not depend on the store, so they pass again. */
  lemma ChecksPass(s: Store, env: Env, c: Command)
    requires KeyOf(c).Some? && Decide(s, env, c).Ok?
    ensures (c.Write? ==> ValidOwner(c.write.owner)) && (c.Capture? ==> CaptureAllowed(c.capture).Ok?)
  {
    hide Embed, Construct, Bound;
  }

  /** A keyed write or capture has created `m` in a store reached without imports. After any later run
      without imports that does not forget it, the same command creates nothing and answers the live
      holder of its key, which is that memory and no other; and a command under the same key with
      other contents is refused. */
  lemma RepeatedCreation(before: seq<Step>, first: Step, later: seq<Step>, env: Env, other: Command)
    requires LegalRun(EMPTY, before) && ImportFree(before) && LegalStep(Run(EMPTY, before), first)
    requires KeyOf(first.command).Some? && KeyOf(other) == KeyOf(first.command)
    requires
      var d := Decide(Run(EMPTY, before), first.env, first.command);
      && d.Ok? && d.value.effect.Create?
      && LegalRun(Apply(Run(EMPTY, before), first.env, first.command), later) && ImportFree(later)
      && StaysLive(Apply(Run(EMPTY, before), first.env, first.command), later, d.value.effect.memory.id)
    ensures
      var s := Run(EMPTY, before);
      var id := Decide(s, first.env, first.command).value.effect.memory.id;
      var u := Run(Apply(s, first.env, first.command), later);
      && Decide(u, env, first.command) == Ok(Outcome(Nothing, Existing)) && Apply(u, env, first.command) == u
      && (forall k :: k in u.memories && Holds(u.memories[k], KeyOf(other).value) <==> k == id)
      && (PrintOf(other) != PrintOf(first.command) ==> Decide(u, env, other).Err?) && Apply(u, env, other) == u
  {
    var s := Run(EMPTY, before);
    var id := Decide(s, first.env, first.command).value.effect.memory.id;
    var w, f := KeyOf(first.command).value, PrintOf(first.command).value;
    ImportFreeRun(before);
    CreationBooks(s, first);
    ChecksPass(s, first.env, first.command);
    StepKeepsInv(s, first);
    hide Decide, Inv, LegalStep, LegalRun, ImportFree, Run, Apply, StaysLive, CaptureAllowed, ValidOwner, KeyOf,
      PrintOf;
    var t := Apply(s, first.env, first.command);
    RunKeepsBooked(t, later, w, f, id);
    var u := Run(t, later);
    BookedKeyCreatesNothing(u, env, first.command, f, id);
    BookedKeyCreatesNothing(u, env, other, f, id);
    KeyedKinds(first.command);
  }

  lemma KeyedKinds(c: Command)
    requires KeyOf(c).Some?
    ensures (c.Write? || c.Capture?) && PrintOf(c).Some?
  {
  }
}
