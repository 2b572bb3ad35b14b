/** An import checks that versions are 1..n, not what the snapshots say. Here the only snapshot of a
    confirmed memory carries another content, and the package is accepted. A pin that finds nothing
    to change then answers with a value its history cannot give back later. */
module ImportedHistory {
  import opened Domain
  import opened MemoryStore
  import opened StoreInvariants
  import opened RoundTrip
  import opened ReplayStability
  import ForeignPinRun

  const MEMORY := Memory(
    0, "o", "x", Fact, 0.5, 0.5, Confirmed, 1, 0, 0, None, None,
    Provenance(FromImport, 0, None, None, [], None, None, None, None),
    Some(Descriptor("profile", "1", 2, "cosine")), None, Some("t"), None)

  const RECORD := Record(MEMORY, [Snapshot(MEMORY.(content := "y"), "created")], [], Some([0.0, 0.0]), None)

  const PIN := PinCommand("t", "o", 0, 1, false, "k", false, {"memory:write"})

  lemma RecordIsValid()
    ensures ValidOwner("o") && ValidMemory(MEMORY) && ValidRecord("o", RECORD)
  {
    ForeignPinRun.OneLetter("o");
    ForeignPinRun.OneLetter("t");
    ForeignPinRun.OneLetter("x");
    hide Normalise, Blank, ValidOwner;
  }

  lemma SnapshotRebuildsOther()
    ensures Rebuild(MEMORY, RECORD.history[0]) != Ok(MEMORY)
  {
    ForeignPinRun.OneLetter("y");
    hide Normalise, Blank, ValidOwner;
  }

  lemma ImportStores(env: Env)
    ensures
      var s := Apply(EMPTY, env, Import("o", [RECORD]));
      && s.memories == map[0 := MEMORY] && s.history == map[0 := RECORD.history] && s.operations == map[]
      && !Restores(s, 0)
  {
    RecordIsValid();
    ImportOne(env, "o", RECORD);
    SnapshotRebuildsOther();
    hide Apply, Rebuild;
  }

  lemma PinSettles(s: Store, env: Env)
    requires s.memories == map[0 := MEMORY] && s.operations == map[]
    ensures
      var d := DecidePin(s, env, PIN);
      d.Ok? && d.value.effect.Settle? && d.value.reply == Returned(MEMORY)
  {
    ForeignPinRun.OneLetter("o");
    assert !Blank("t") by {
      assert !IsSpace("t"[0]);
    }
    hide Normalise, Blank, ValidOwner;
  }

  /** The pin settles with the imported value, which its last snapshot does not rebuild: by
      `ReplayNeedsRestoring`, repeating the pin after the next version gives another answer. */
  lemma PinAnswersUnrestored(env: Env, pin: Env)
    ensures
      var s := Apply(EMPTY, env, Import("o", [RECORD]));
      var step := Step(pin, Pin(PIN));
      && Inv(s) && Decide(s, pin, Pin(PIN)).Ok? && Decide(s, pin, Pin(PIN)).value.reply == Returned(MEMORY)
      && AnsweredCurrent(s, step, MEMORY) && !Restores(s, 0)
  {
    var s := Apply(EMPTY, env, Import("o", [RECORD]));
    RecordIsValid();
    ImportOne(env, "o", RECORD);
    ImportStores(env);
    EmptyInv();
    StepKeepsInv(EMPTY, Step(env, Import("o", [RECORD])));
    PinSettles(s, pin);
    hide Apply, Restores, Inv, DecidePin, DecideImport;
  }
}
