/** A run that ends with a memory whose export cannot be imported: captured and confirmed under a
    provider of dimension 2, then pinned under one of dimension 3. */
module ForeignPinRun {
  import opened Domain
  import opened MemoryStore
  import opened StoreInvariants
  import opened RoundTrip
  import opened Portability

  function Zeros(text: string, dimension: nat): Option<Vector> {
    Some(seq(dimension, i => 0.0))
  }

  function EnvOf(dimension: nat, freshId: Id): Env {
    Env(0, Provider(Descriptor("profile", "1", dimension, "cosine"), text => Zeros(text, dimension)), freshId)
  }

  const SCOPES := {"memory:write"}

  const CAPTURE := CaptureCommand(
    "t", "o", "c", "x", Fact, None, Provenance(FromUser, 0, None, None, [], Some("client"), None, None, None),
    Consent(Manual, "consent", UserRequestedMemory, "1", 0), "k", 0.5, 0.5, "manual", false, SCOPES)

  const CONFIRM := ConfirmCommand("t", "o", 0, 1, "k", None, None, None, "r", false, SCOPES)

  const PIN := PinCommand("t", "o", 0, 2, true, "k", false, SCOPES)

  const STEPS := [Step(EnvOf(2, 0), Capture(CAPTURE)), Step(EnvOf(2, 1), Confirm(CONFIRM)), Step(EnvOf(3, 1), Pin(PIN))]

  const CAPTURED := CaptureDraft(CAPTURE, EnvOf(2, 0))

  const CONFIRMED := CAPTURED.(state := Confirmed, version := 2)

  const PINNED := CAPTURED.(state := Pinned, version := 3)

  lemma OneLetter(text: string)
    requires |text| == 1 && !IsSpace(text[0])
    ensures Normalise(text) == text && ValidOwner(text)
  {
    assert text + "" == text && Words("") == [];
    WordsStep(text, "");
  }

  lemma Stages(m: Memory)
    requires m in {CAPTURED, CONFIRMED, PINNED}
    ensures Construct(m) == Ok(m)
  {
    OneLetter("x");
    OneLetter("o");
    OneLetter("t");
    OneLetter("k");
    hide Normalise, ValidOwner;
  }

  lemma CaptureStage()
    ensures
      var d := DecideCapture(EMPTY, EnvOf(2, 0), CAPTURE);
      d.Ok? && d.value.effect == Create(CAPTURED, CaptureFingerprint(CAPTURE), Zeros("x", 2).value)
  {
    OneLetter("o");
    assert !Blank("t") && !Blank("c") by {
      assert !IsSpace("t"[0]) && !IsSpace("c"[0]);
    }
    Stages(CAPTURED);
    hide Construct, ValidOwner, Blank;
  }

  lemma ConfirmStage(s: Store)
    requires 0 in s.memories && s.memories[0] == CAPTURED && s.operations == map[]
    ensures
      var d := DecideConfirm(s, EnvOf(2, 1), CONFIRM);
      && d.Ok? && d.value.effect.Advance? && d.value.effect.memory == CONFIRMED
      && d.value.effect.settled.Some? && d.value.effect.settled.value.key == OperationKey("o", ConfirmOp, "k")
  {
    OneLetter("o");
    assert !Blank("t") && !Blank("r") by {
      assert !IsSpace("t"[0]) && !IsSpace("r"[0]);
    }
    Stages(CONFIRMED);
    hide Construct, ValidOwner, Blank;
    assert Patched(CAPTURED, 0, ConfirmChanges(CONFIRM, EnvOf(2, 1))) == CONFIRMED;
  }

  lemma PinStage(s: Store)
    requires 0 in s.memories && s.memories[0] == CONFIRMED && OperationKey("o", PinOp, "k") !in s.operations
    ensures
      var d := DecidePin(s, EnvOf(3, 1), PIN);
      d.Ok? && d.value.effect.Advance? && d.value.effect.memory == PINNED && |d.value.effect.vector| == 3
  {
    OneLetter("o");
    assert !Blank("t") && !Blank("pinned") by {
      assert !IsSpace("t"[0]) && !IsSpace("pinned"[0]);
    }
    Stages(PINNED);
    hide Construct, ValidOwner, Blank;
    var changes := Changes(None, None, None, None, Some(PinTarget(PIN)), None, None, None, None);
    assert Patched(CONFIRMED, 0, changes) == PINNED;
  }

  /** The three steps one after the other. */
  lemma ThreeSteps()
    ensures
      var a, b, c := STEPS[0], STEPS[1], STEPS[2];
      var s1 := Apply(EMPTY, a.env, a.command);
      var s2 := Apply(s1, b.env, b.command);
      && Run(EMPTY, STEPS[..1]) == s1 && Run(EMPTY, STEPS[..2]) == s2
           && Run(EMPTY, STEPS) == Apply(s2, c.env, c.command)
  {
    hide Apply;
    assert STEPS[..1][..0] == [] && STEPS[..2][..1] == STEPS[..1] && STEPS[..|STEPS| - 1] == STEPS[..2];
    assert Run(EMPTY, STEPS[..0]) == EMPTY;
  }

  lemma StoredAfter(s: Store, step: Step, m: Memory)
    requires step.command.Capture? || step.command.Confirm? || step.command.Pin?
    requires
      var d := Decide(s, step.env, step.command);
      d.Ok? && (d.value.effect.Create? || d.value.effect.Advance?) && d.value.effect.memory == m
    ensures
      var e := Decide(s, step.env, step.command).value.effect;
      var t := Apply(s, step.env, step.command);
      && t.memories == s.memories[m.id := m] && t.vectors == s.vectors[m.id := e.vector] && t.tombstones == s.tombstones
      && t.operations == if e.Advance? then Post(s.operations, e.settled) else s.operations
  {
    hide Decide;
  }

  /** What each prefix of the run stores. */
  lemma StoresOfRun()
    ensures Run(EMPTY, STEPS[..1]).memories == map[0 := CAPTURED] && Run(EMPTY, STEPS[..1]).tombstones == {}
    ensures Run(EMPTY, STEPS[..2]).memories == map[0 := CONFIRMED] && Run(EMPTY, STEPS[..2]).tombstones == {}
    ensures
      var s := Run(EMPTY, STEPS);
      s.memories == map[0 := PINNED] && 0 in s.vectors && |s.vectors[0]| == 3
  {
    ThreeSteps();
    hide DecideCapture, DecideConfirm, DecidePin, Apply, Run;
    CaptureStage();
    StoredAfter(EMPTY, STEPS[0], CAPTURED);
    var s1 := Run(EMPTY, STEPS[..1]);
    ConfirmStage(s1);
    StoredAfter(s1, STEPS[1], CONFIRMED);
    var s2 := Run(EMPTY, STEPS[..2]);
    PinStage(s2);
    StoredAfter(s2, STEPS[2], PINNED);
  }

  lemma StepIsLegal(s: Store, step: Step)
    requires !step.command.Import? && s.tombstones == {} && step.env.freshId !in s.memories
    ensures LegalStep(s, step)
  {
  }

  /** Three steps of which each is legal make a legal run. */
  lemma ThreeLegal(steps: seq<Step>)
    requires |steps| == 3 && forall i :: 0 <= i < 3 ==> !steps[i].command.Import?
    requires LegalStep(EMPTY, steps[0]) && LegalStep(Run(EMPTY, steps[..1]), steps[1])
    requires LegalStep(Run(EMPTY, steps[..2]), steps[2])
    ensures LegalRun(EMPTY, steps) && ImportFree(steps)
  {
    assert steps[..0] == [] && Run(EMPTY, []) == EMPTY;
    hide Run, LegalStep;
  }

  lemma RunIsLegal()
    ensures LegalRun(EMPTY, STEPS) && ImportFree(STEPS)
  {
    StoresOfRun();
    hide Run, LegalStep, LegalRun, ImportFree;
    StepIsLegal(EMPTY, STEPS[0]);
    StepIsLegal(Run(EMPTY, STEPS[..1]), STEPS[1]);
    StepIsLegal(Run(EMPTY, STEPS[..2]), STEPS[2]);
    ThreeLegal(STEPS);
  }

  /** The run is legal and without imports, and its last step is a foreign pin: the owner's export
      is rejected. */
  lemma ForeignPinBreaksRoundTrip(env: Env, records: seq<Record>)
    ensures LegalRun(EMPTY, STEPS) && ImportFree(STEPS)
    ensures Aligned(Run(EMPTY, STEPS)) && !Portable(Run(EMPTY, STEPS), "o")
    ensures IsExport(Run(EMPTY, STEPS), "o", records) ==> Apply(EMPTY, env, Import("o", records)) == EMPTY
  {
    RunIsLegal();
    StoresOfRun();
    EmptyInv();
    ReachableInv(EMPTY, STEPS);
    OneLetter("o");
    var s := Run(EMPTY, STEPS);
    AlignedOf(s);
    hide Run, LegalRun, ImportFree, Inv, Apply, IsExport, Aligned, ValidOwner, CaptureDraft;
    assert !Portable(s, "o") by {
      assert LiveFor(s, "o", 0) && !PortableMemory(s, 0);
    }
    if IsExport(s, "o", records) {
      ExportImportRoundTrip(s, env, "o", records);
    }
  }
}
