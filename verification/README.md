# Memory service verification

A Dafny model of the parts of this repository that keep user memories, and proofs about every
run of them. `dafny verify dfyconfig.toml` checks the whole project.

| files | what they hold |
|---|---|
| `Domain`, `Store`, `Service` | the memory aggregate, the in-memory store as a value with its seven components and the decision each command takes, and the classes (`InMemoryStore`, `UnitOfWork`, `MemoryApplicationService`) that change fields in place and are proved against those decisions |
| `Invariants`, `Lifecycle`, `Replay`, `RoundTrip`, `Portability`, `VectorOrigin`, `KeyedWrites` | safety over whole runs of that service |
| `ForeignPin`, `ImportedHistory` | two concrete runs at which a condition of those theorems fails |
| `Outcomes`, `ImportOutcomes`, `TextAndStates` | what each command of the service does to the tables and which commands it refuses, without the decision functions |
| `Ranking`, `Recall`, `RecallMeaning` | recall against its one-line specification, and what that prefers |
| `Envelope`, `CloudStore`, `CloudSafety`, `CloudService`, `CloudOutcomes` | envelope encryption, the encrypted cloud store, its deletion ledger, key rotation and the re-embedding handler with other calls running in between |
| `Worker`, `WorkerSafety`, `WorkerService` | the tenant worker: its tables and snapshots, runs in which attempts overlap and the worker restarts, and the class with its job objects |
| `Reembedding` | the paginated re-embedding job, coverage and cutover over relational tables |
| `JobOutcomes` | what the worker, the re-embedding job and the limiter do to one job, memory or request |
| `RateLimiter`, `Calibration`, `CalibrationMeaning` | the sliding-window limiter and the five-fold calibration, with its metrics as counts |

The service is specified by one function per command (`Decide…`), which returns an error or an
effect with a reply; `Commit` carries an effect out and `Apply` is one transaction, so a raised
error leaves the store as it was. `Run` applies a sequence of transactions. A step is legal when
new identifiers are unused and an imported package consists of memory and relation values that
could be constructed. The imperative methods are proved equal to these functions, and the
theorems are about the functions over arbitrary legal runs. The cloud store, the worker and the
tables follow the same plan (`…Op`, `Next`, `Play`). The `…Outcome`, `…AllowedIff` and `…Means` theorems say
what these functions do in terms of the tables and the request alone.

## What the proofs found

- The service embeds the text a write or capture was given, but stores its normal form. The stored
  vector is the content's own exactly when the two embed alike (`VectorOrigin.WriteVectorIsCurrent`,
  with an input where they differ); confirm, pin and update always embed the content.
- Pin embeds again and keeps the old embedding descriptor. An owner can be exported and imported
  exactly when no live memory's vector was last written by a pin under another dimension
  (`Portability.ImportFreePortable`, with a run that ends otherwise in `ForeignPinRun`).
- A pin with nothing to change answers with the current value. When an imported history does not
  give that value back, repeating the pin after a later version answers differently
  (`ReplayStability.ReplayNeedsRestoring`, with such a package in `ImportedHistory`).
- Recall that names no space, because there is no context space or because only the global space is
  included, applies no space filter, and so a service that holds a memory of another space can answer
  with it (`Recall.PolicyHoldsIff`).
- A cloud record can be forgotten only once per owner and id: if a forget came before the record
  was restored, later ones leave it (`CloudSafety.ForgetErases`, `EarlyForgetShields`).
- A cloud restore that is rejected keeps the ledger entries it had taken in
  (`CloudSafety.RejectedRestoreClear`), and restore does not read the ledger a backup carries
  (`CloudSafety.RestoreIntoNewStore`).
- After a restore of a backup, an update can give other content the version the re-embedding handler
  has read before, and the handler then stores a vector of the content that is gone
  (`CloudSafety.RestoreDefeatsFreshness`).
- A worker rejects its own snapshot as soon as any envelope has expired, even that of a finished
  job (`Worker.RestartIsProjection`), and a reused job id breaks the indices
  (`Worker.ReusedIdBreaksIndices`).
- The retry budget holds as long as a job is run one attempt at a time (`WorkerSafety.RetriesAreBounded`).
  Nothing enforces that: two overlapping calls of `run_one` call the handler beyond the budget, and
  the one that answers last can turn a ready job into a dead letter
  (`WorkerSafety.OverlapBreaksBudget`).
- A snapshot taken while the last attempt of a budget is at work is accepted on restart, and the job
  then runs once more than its budget allows (`WorkerSafety.RestartKeepsBudgetIff`,
  `RestartBreaksBudget`). Any restart also forgets the attempts made since its snapshot
  (`WorkerSafety.CallsAreCounted`).
- The limiter's documentation speaks of a fixed window; the code slides. The window is half open:
  with its start included it may hold up to twice the maximum (`RateLimiter.ClosedWindowBound`,
  `ClosedWindowIsTight`).

## Model

| member | source | states |
|---|---|---|
| Domain.NormaliseIdempotent | src/omp/domain/memory.py:67-75 | normalising content twice is normalising it once, and never makes text blank |
| Domain.ConstructedIsValid | src/omp/domain/memory.py:67-91 | constructing a constructed memory again gives the same memory |
| Domain.EvolveIsNextVersion | src/omp/domain/memory.py:151-234 | an evolved memory is the next version with the same identity, stamped with the given instant, in an equal state or one reached by an allowed edge, the superseded and contradicted ones with a related memory |
| Domain.EvolveIsValid | src/omp/domain/memory.py:151-188 | whatever evolve returns could be constructed |
| Domain.RebuildRestores | src/omp/application/fakes.py:149-172 | rebuilding from a snapshot of a memory gives that memory back, all but the embedding descriptor |
| TextAndStates.WordsSplit | src/omp/domain/memory.py:67-75 | the words of a text are what lies between its white space |
| TextAndStates.NormaliseMeans | src/omp/domain/memory.py:67-75 | normal form keeps the words, with one blank between them and no other white space |
| TextAndStates.StripMeans | src/omp/domain/types.py:89-95 | stripping takes white space off both ends and no more |
| TextAndStates.EnteredFrom | src/omp/domain/memory.py:190-234 | the states each state can be entered from; nothing becomes a candidate |
| StoreInvariants.DecisionEnabled | src/omp/application/services.py:87-380 | in an invariant store every decision of every command is an effect that may be committed: fresh ids, next versions, open links, own claims, loadable packages |
| StoreInvariants.CommitAligned | src/omp/application/fakes.py:187-233 | every enabled effect keeps the ids of memories, vectors and histories the same and each history at versions 1..n |
| StoreInvariants.CommitRelations | src/omp/application/fakes.py:276-325 | every enabled effect, cascade on forget included, keeps each relation joining two distinct live memories of its owner |
| StoreInvariants.CommitDeletion | src/omp/application/fakes.py:276-294 | every enabled effect keeps the live memories clear of the tombstones |
| StoreInvariants.StepKeepsInv | src/omp/application/fakes.py:447-473 | every transaction, committed or rolled back, keeps all invariants of the store |
| StoreInvariants.EmptyInv | src/omp/application/fakes.py:48-60 | the empty store satisfies them |
| StoreInvariants.ReachableInv | src/omp/application/services.py:522-557 | over any legal run, imports included: same ids in memories, vectors and histories, complete histories, sound relations, no claim in progress, no live memory under a tombstone, a holder for each write key |
| StoreInvariants.LedgerMonotone | src/omp/application/fakes.py:75-132 | over any legal run completed rows never change and tombstones only grow |
| StoreInvariants.ReturnSettles | src/omp/application/services.py:687-693 | a keyed command that returns has completed its claim |
| StoreInvariants.ClaimedKeyIsInert | src/omp/application/fakes.py:75-112 | a command whose key has been claimed never changes the store, whatever else it carries |
| StoreInvariants.KeyMutatesOnce | src/omp/application/fakes.py:75-132 | over any legal run each (owner, operation, key) changes the store at most once |
| Lifecycle.SupersededIsAbsorbing | src/omp/domain/memory.py:190-234 | in a lifecycle path every state after superseded is superseded |
| Lifecycle.CandidateIsPrefix | src/omp/domain/memory.py:190-234 | in a lifecycle path candidates come only at the start |
| Lifecycle.CandidateIsDecided | src/omp/domain/memory.py:190-234 | the first state after candidate is confirmed or pinned |
| Lifecycle.StepKeepsNative | src/omp/application/fakes.py:216-233 | every transaction, also an import that offers a live memory again, keeps the histories of memories it does not load itself lifecycle paths that mirror the memory |
| Lifecycle.ReachableNative | src/omp/domain/memory.py:151-234 | in every store reached from the empty one, every memory that was written or captured rather than loaded from a package has a history whose last snapshot mirrors it, whose snapshots can all be rebuilt and whose states follow allowed edges |
| Lifecycle.RelationLost | src/omp/application/fakes.py:276-294 | a relation disappears only when one of its ends is forgotten, which leaves a tombstone |
| Lifecycle.BackingSurvives | src/omp/application/fakes.py:276-325 | while the memory lives, a relation that explains its state goes only when its target is forgotten |
| Lifecycle.SupersessionEvidence | src/omp/application/services.py:634-686 | every superseded or contradicted memory that was written or captured was put there by an update of the run naming another memory, and the relation is still stored unless a later step of the run forgot that memory |
| Lifecycle.ReachableValid | src/omp/domain/memory.py:67-91 | in every reachable store each memory is a value that could be constructed |
| ReplayStability.KeptAnswers | src/omp/application/fakes.py:149-172 | looking up a version whose own snapshot rebuilds it returns it with the current embedding descriptor, whatever the other snapshots are |
| ReplayStability.ReturnRemembers | src/omp/application/services.py:591-694 | whatever a keyed update, confirm or pin returns is pointed at by its row; the store keeps it always when a version was written or an earlier one answered, and exactly when the last snapshot rebuilds it when the current value was answered |
| ReplayStability.RunRemembers | src/omp/application/fakes.py:114-172 | what is kept stays kept over every later legal run that does not forget the memory |
| ReplayStability.ReplayStable | src/omp/application/services.py:210-342 | so repeating the command after any such run returns the same memory, all but the embedding descriptor, and leaves the store as it was; only an answer that wrote no version and gave the current value needs the last snapshot to rebuild that value |
| ReplayStability.ReplayNeedsRestoring | src/omp/application/services.py:311-323 | that condition is exact: after one more version of the memory the same answer comes back if and only if the last snapshot rebuilt it |
| ReplayStability.FaithfulRestores | src/omp/application/fakes.py:187-233 | a history that mirrors its memory, as that of every written or captured one, meets the condition |
| ImportedHistory.PinAnswersUnrestored | src/omp/application/services.py:569-574 | an accepted package after which an unchanging pin answers with a value its last snapshot does not rebuild |
| ReplayStability.ReplayAfterForget | src/omp/application/fakes.py:149-172 | once the memory is gone the repetition answers not found and still changes nothing |
| ReplayStability.UpdateShownLater | src/omp/application/fakes.py:149-172 | after any later legal run that does not forget the memory, looking up the version an update returned shows every field it returned |
| RoundTrip.ExportValid | src/omp/application/services.py:560-589 | an exported record passes import validation exactly when its vector has the dimension of its descriptor and its key is bound |
| RoundTrip.ImportOne | src/omp/application/services.py:500-557 | importing one valid record into an empty store stores exactly that record |
| RoundTrip.ExportImportRoundTrip | src/omp/application/services.py:500-557 | an export with embeddings imports into an empty store if and only if every memory in it is portable; then memories, vectors, fingerprints, histories and relations are the owner's exactly and all records count as imported; otherwise nothing changes |
| RoundTrip.ReimportChangesNothing | src/omp/application/services.py:898-911 | importing a store's own portable export back changes nothing and counts all records as replayed |
| RoundTrip.SecondImportReplays | src/omp/application/fakes.py:382-420 | so does importing the package a second time into the store it built |
| Portability.FitsIffNoMisfit | src/omp/application/services.py:324-342 | over any run without imports, whatever its providers, a live memory's vector has its descriptor's dimension exactly when the last step that wrote it was no pin under another dimension |
| Portability.ImportFreePortable | src/omp/application/services.py:488-589 | so an owner of such a run is portable exactly when no live memory ends that way |
| Portability.RunRoundTrip | src/omp/application/services.py:488-557 | exporting an owner after any run without imports and importing into an empty store rebuilds the owner's share exactly in that case, and leaves the empty store otherwise |
| Portability.GuardedRunIsPortable | src/omp/application/services.py:324-342 | every owner is portable when each pin that moves a memory sees the dimension of its descriptor |
| ForeignPinRun.ForeignPinBreaksRoundTrip | src/omp/application/services.py:324-342 | capture, confirm and a pin under another dimension: a legal run whose export is rejected |
| Portability.PinKeepsPortable | src/omp/application/services.py:324-342 | a pin that moves its memory keeps the owner portable exactly when the provider has the dimension of the memory's descriptor |
| KeyedWrites.BookedKeyCreatesNothing | src/omp/application/services.py:92-102 | while a write key has its live holder, no write or capture under it changes the store; the same contents answer the holder, others are refused |
| KeyedWrites.RepeatedCreation | src/omp/application/services.py:87-190 | after any import-free run that does not forget the created memory, repeating a keyed write or capture creates nothing and answers that memory, the only one under its key |
| VectorOrigin.VectorsAreRooted | src/omp/application/services.py:87-342 | over any run without imports under one embedder, each vector embeds a text that normalises to its memory's content, and from version 2 on the content itself |
| VectorOrigin.VectorsAreCurrent | src/omp/application/services.py:591-672 | so under an embedder that ignores white space every vector is that of the current content |
| VectorOrigin.WriteVectorIsCurrent | src/omp/application/services.py:103-118 | a write stores its content's own vector exactly when the given text and its normal form embed alike |
| VectorOrigin.CaptureVectorIsCurrent | src/omp/application/services.py:170-189 | the same for a capture |
| VectorOrigin.LengthEmbedderShowsIt | src/omp/application/services.py:103-118 | a text with a repeated space, embedded by its length, is stored with a vector that is not its content's |
| Service.InMemoryStore.ClaimOperation | src/omp/application/fakes.py:75-112 | answers a finished row, conflicts on another fingerprint or an open row, and otherwise adds exactly one open row |
| Service.InMemoryStore.CompleteOperation | src/omp/application/fakes.py:114-132 | completes the row of the same fingerprint and changes no other, or conflicts and changes nothing |
| Service.InMemoryStore.GetMemory | src/omp/application/fakes.py:139-147 | finds the memory only for its owner and, when given, its tenant |
| Service.InMemoryStore.GetMemoryVersion | src/omp/application/fakes.py:149-172 | the current value or the one rebuilt from that version's snapshot |
| Service.InMemoryStore.FindByKey | src/omp/application/fakes.py:174-185 | nothing for an unbound key, a live holder and its fingerprint for a bound one, an error when the holder is gone |
| Service.InMemoryStore.CreateMemory | src/omp/application/fakes.py:187-214 | adds memory, vector, first snapshot and write key, and nothing else; with a bound key it answers a live holder or conflicts and changes nothing |
| Service.InMemoryStore.UpdateMemory | src/omp/application/fakes.py:216-233 | succeeds exactly for the owner's memory at the expected version, and then replaces memory and vector and appends the snapshot |
| Service.InMemoryStore.ForgetMemory | src/omp/application/fakes.py:276-294 | removes memory, vector, history, write keys and all relations that touch it and leaves a tombstone, or finds nothing and changes nothing |
| Service.InMemoryStore.AddRelation | src/omp/application/fakes.py:310-325 | adds the relation between two live memories of the owner, or says why not and changes nothing |
| Service.InMemoryStore.ListRelations | src/omp/application/fakes.py:327-333 | exactly the owner's relations that touch the memory |
| Service.InMemoryStore.ExportMemories | src/omp/application/fakes.py:347-380 | one complete record per live memory of the owner, in order of id |
| Service.InMemoryStore.ImportRecords | src/omp/application/fakes.py:382-420 | takes the records in turn, each against what the earlier ones stored, counts new and known ones and inserts their relations, or stops with the first record's error |
| Service.UnitOfWork.Exit | src/omp/application/fakes.py:447-473 | after an exception the store is the one entered, in all seven components; otherwise it is left alone |
| Service.MemoryApplicationService.Write | src/omp/application/services.py:87-124 | ends in the store and reply its decision names, rolled back when it raises; a repeated write answers a live holder of its key |
| Service.MemoryApplicationService.Capture | src/omp/application/services.py:126-190 | the same for a capture, after consent and policy |
| Service.MemoryApplicationService.Confirm | src/omp/application/services.py:210-277 | the same for confirming a candidate or stale memory |
| Service.MemoryApplicationService.Pin | src/omp/application/services.py:279-342 | the same for pinning and unpinning, with the branch that settles the claim without a new version |
| Service.MemoryApplicationService.Discard | src/omp/application/services.py:344-380 | the same for discarding a candidate, replaying the stored result |
| Service.MemoryApplicationService.Update | src/omp/application/services.py:591-694 | the same for an update with its supersedes and contradicts branches; the relation conflict after the row was written is rolled back |
| Service.MemoryApplicationService.Forget | src/omp/application/services.py:759-783 | the same for a forget; a keyed repetition answers false |
| Service.MemoryApplicationService.Relate | src/omp/application/services.py:785-809 | the same for relating two memories |
| Service.MemoryApplicationService.ImportMemories | src/omp/application/services.py:500-557 | the same for a package: validation, endpoints, screening, missing vectors, then all records or none |
| Outcomes.GetFinds | src/omp/application/fakes.py:139-147 | a lookup finds exactly what the owner, and the tenant when given, has |
| Outcomes.ForgetOutcome | src/omp/application/services.py:759-783 | a forget answers true exactly for an unclaimed key and a memory the caller can get; then memory, vector, history, relations and write keys of it are gone, its tombstone is there and everything else is as before; otherwise only the ledger changes |
| Outcomes.ForgottenForGood | src/omp/application/fakes.py:276-294 | after a forget or discard that answered true no later legal run, imports included, lets the same owner and tenant find that id again |
| Outcomes.DiscardOutcome | src/omp/application/services.py:344-380 | a discard under a new key succeeds exactly for an authorised caller's own candidate at the expected version, and erases it; a claimed key answers the stored result |
| Outcomes.DiscardRepeats | src/omp/application/services.py:344-380 | repeating it after any later legal run answers true again and changes nothing |
| Outcomes.WriteOutcome | src/omp/application/services.py:87-124 | when a new write succeeds, the value of every field of the memory it stores, its vector, first snapshot and bound key, and that nothing else changes |
| Outcomes.CaptureOutcome | src/omp/application/services.py:126-190 | the same for a capture, which stores a candidate with its consent |
| Outcomes.WritesAlike | src/omp/application/services.py:846-856 | two writes have the same fingerprint exactly when they give the same fields |
| Outcomes.CapturesAlike | src/omp/application/services.py:147-159 | the same for captures |
| Outcomes.UpdateAllowedIff | src/omp/application/services.py:591-694 | exactly when an update under a new key succeeds: the version, the target, the edge, the ranges and the embedding; a refused one changes nothing |
| Outcomes.UpdateOutcome | src/omp/application/services.py:620-693 | each field the update gives is in the returned memory, content in normal form, and each it does not give is as before; the state follows the target it names; memory, vector, history, relation and row are stored and nothing else changes |
| Outcomes.UpdatesAlike | src/omp/application/services.py:858-883 | two updates have the same fingerprint exactly when they ask for the same change |
| Outcomes.ConfirmOutcome | src/omp/application/services.py:210-277 | exactly when a confirm under a new key succeeds; it applies the corrected content, type and space, keeps every other field and stores the confirmed version |
| Outcomes.ConfirmsAlike | src/omp/application/services.py:215-224 | two confirms have the same fingerprint exactly when they ask for the same change |
| Outcomes.PinOutcome | src/omp/application/services.py:279-342 | exactly when a pin under a new key succeeds; it answers the memory itself when there is nothing to change and otherwise changes only its state, instant and vector |
| Outcomes.PinSettlesClaim | src/omp/application/services.py:311-342 | either way its row is completed with the version it answers |
| Outcomes.RelateOutcome | src/omp/application/services.py:785-809 | exactly when a relation is added; it runs from the named source to the named target with the named kind, and nothing else changes |
| Outcomes.ClaimConflicts | src/omp/application/fakes.py:75-112 | a claimed key is a conflict under another fingerprint, whatever its row holds, and answers its row only when that is completed |
| ImportOutcomes.EquivalentOutcome | src/omp/application/services.py:898-911 | a record is a replay exactly when memory, history and relations are the stored ones and so are its vector and fingerprint when it carries them |
| ImportOutcomes.ImportAllowedIff | src/omp/application/services.py:500-589 | exactly which packages are accepted: valid distinct records whose relations end at known memories, each a replay or loadable; a refused one changes nothing |
| ImportOutcomes.ImportStores | src/omp/application/fakes.py:382-420 | an accepted package stores its new memories as its records have them, with their vectors, relations and keys, leaves what was there and counts the new ones |
| Ranking.SortedTop | src/omp/application/services.py:455-456 | sorting and cutting gives the best members of the list, best first |
| Ranking.TopUnique | src/omp/application/services.py:455-456 | there is only one such list |
| Recall.RequestedSpaces | src/omp/application/services.py:394-398 | a request that names a space searches named spaces only; any other searches once without a space filter |
| Recall.SearchCandidates | src/omp/application/fakes.py:235-274 | the best `limit` of exactly the matching memories, by similarity and then id |
| Recall.Merge | src/omp/application/services.py:424-454 | deduplicating and thresholding offers exactly the admissible candidates, each once |
| Recall.RecallMemories | src/omp/application/services.py:382-460 | errors in the order of the checks; the result is the best `limit` of what the closest candidates of each space offer and each item qualifies; when no space overflows the candidate limit it is exactly the best `limit` of filtering the whole store |
| RecallMeaning.AnswerMeans | src/omp/application/services.py:382-460 | every item shows a memory that meets the request, its score within half a millionth of 0.75 similarity, 0.15 importance and 0.10 confidence; scores never rise along the answer, ties go by similarity and then by id |
| RecallMeaning.LeftOutScoresLess | src/omp/application/services.py:441-460 | what meets the request and is left out is left out for the limit, and scores at most what each returned one scores |
| RecallMeaning.ClosestAreKept | src/omp/application/fakes.py:235-274 | a search keeps the closest memories in order, and leaves none out that is closer than one it keeps |
| RecallMeaning.CloserComesFirst | src/omp/application/services.py:441-460 | of two returned memories of equal importance and confidence the more similar one stands first |
| RecallMeaning.MoreSimilarNotLower | src/omp/application/services.py:441-460 | raising one memory's similarity, all else equal, never moves it behind another |
| RecallMeaning.WantedMeans | src/omp/application/services.py:411-440 | what qualifies is exactly what has the owner, tenant, state, type, a requested and granted space, and a similarity at the threshold |
| RecallMeaning.AllowedMeans | src/omp/application/services.py:382-410 | exactly when recall is refused |
| Recall.RecallIsDetermined | src/omp/application/services.py:455-456 | request and store determine the result, overflowing spaces included |
| Recall.NamedRecallStaysInPolicy | src/omp/application/models.py:81-86 | when a space is named, every qualifying memory is in the context space or one the policy allows |
| Recall.UnnamedRecallIgnoresSpaces | src/omp/application/fakes.py:255 | when none is named, a matching memory qualifies whatever its space |
| Recall.PolicyHoldsIff | src/omp/application/services.py:394-403 | whatever the service has done before, every item recall returns lies in a granted space, if and only if the request names a space or can match nothing at all |
| Recall.UnnamedRecallCanLeavePolicy | src/omp/application/services.py:394-403 | an allowed request without spaces that a service which has imported one memory answers with that memory of another space |
| Envelope.DecryptIsMeaning | src/omp/cloud/security.py:300-329 | decryption succeeds exactly when the key service answers and the envelope means something for this tenant, record and field, and returns that meaning |
| Envelope.EncryptMeans | src/omp/cloud/security.py:281-298 | an encrypted field means its plain text, under the key version asked for |
| Envelope.RewrapKeepsMeaning | src/omp/cloud/security.py:331-356 | rotation keeps the meaning and lands on the target version |
| CloudSafety.StepKeepsVectorsBound | src/omp/cloud/encrypted_memory.py:159-213 | every operation, returned or raised, keeps each vector with a live record of the same owner and version |
| CloudSafety.VectorsAlwaysBound | src/omp/cloud/encrypted_memory.py:185-213 | so it holds over every run |
| CloudSafety.RunFollows | src/omp/cloud/encrypted_memory.py:159-213 | over a run that restores at most later forms of a record in its place, a record that still has the version once read still has that content |
| CloudSafety.ReembedIsFresh | src/omp/cloud/worker.py:205-238 | whatever runs between read and store, restores included unless they put another form of the record in its place: if the store accepts, the vector embeds the record's current content at its current version; if not, no vector changed |
| CloudSafety.FreshnessDecided | src/omp/cloud/worker.py:205-238 | whatever runs between read and store, any restores included: an accepted vector is fresh exactly when the content of that moment embeds to the same vector as the content read |
| CloudSafety.RestoreDefeatsFreshness | src/omp/cloud/encrypted_memory.py:159-337 | back up, update, read, restore the backup, update again: for every readable active record the vector of the content read is accepted and is not that of the stored content |
| CloudSafety.RunKeepsDeleted | src/omp/cloud/encrypted_memory.py:276-337 | a deleted record stays deleted over every run, restores from any snapshot included |
| CloudSafety.DeletionIsFinal | src/omp/cloud/encrypted_memory.py:223-259 | after a record is forgotten or its owner deleted, no run makes it readable by that owner again |
| CloudSafety.RestoreClears | src/omp/cloud/encrypted_memory.py:303-337 | a successful restore leaves live records and ledger disjoint, from any state |
| CloudSafety.RejectedRestoreClear | src/omp/cloud/encrypted_memory.py:286-318 | a restore rejected for an entry or a record leaves records as they were, and disjoint from the ledger exactly when no entry before the first invalid one names a live record |
| CloudSafety.ForgetErases | src/omp/cloud/encrypted_memory.py:223-236 | after a forget the record is gone unless the forget was asked for before and the record is live again |
| CloudSafety.EarlyForgetShields | src/omp/cloud/encrypted_memory.py:223-236 | a forget of an absent record, then a restore of it, leaves a record that forget does not remove |
| CloudSafety.RunKeepsKeysOwned | src/omp/cloud/encrypted_memory.py:85-126 | over any run a write key points at a record of its own owner or at an id that is gone for good |
| CloudSafety.RepeatedWriteReadsOwn | src/omp/cloud/encrypted_memory.py:85-126 | so a repeated write answers with a record of the writer or not at all, and changes nothing |
| CloudSafety.RunKeepsWellOwned | src/omp/cloud/encrypted_memory.py:40-49 | over any run only well-formed owners enter records and ledger |
| CloudSafety.OwnBackupRestores | src/omp/cloud/encrypted_memory.py:268-337 | restoring one's own backup at once succeeds, and brings back the same records exactly when the ledger names none of them; then vectors and ledger are the same, too |
| CloudSafety.RestoreIntoNewStore | src/omp/cloud/encrypted_memory.py:276-303 | into a new store a record comes back exactly when the snapshot has it and no entry passed along names it; the snapshot's own ledger plays no part |
| CloudSafety.BackupMoves | src/omp/cloud/encrypted_memory.py:261-337 | a backup restored into a new store together with its ledger gives the same ledger, and the same records exactly when the ledger names none of them |
| CloudSafety.RewrapKeepsMeaningOfAll | src/omp/cloud/encrypted_memory.py:344-367 | a successful rewrap keeps every content and provenance, puts all fields at the target version and counts those that differed; a failed one changes nothing |
| CloudSafety.RewrapTwice | src/omp/cloud/encrypted_memory.py:344-367 | repeating a successful rewrap moves nothing, under any key service |
| CloudService.EncryptedCloudMemoryService.Write | src/omp/cloud/encrypted_memory.py:85-126 | new state and answer of a write: validation, the repeated key, then one new record |
| CloudService.EncryptedCloudMemoryService.GetPlain | src/omp/cloud/encrypted_memory.py:143-149 | the decrypted record for its owner, nothing otherwise |
| CloudOutcomes.ReadOutcome | src/omp/cloud/encrypted_memory.py:143-149 | a read finds the owner's record and shows it exactly when both fields decrypt, as the texts they mean; it finds nothing that is another owner's |
| CloudOutcomes.WriteOutcome | src/omp/cloud/encrypted_memory.py:85-126 | a new write succeeds exactly when the key service answers; reading the new id gives the content and provenance it was given, every other field is the given one, and no other record changes |
| CloudOutcomes.WrittenContentStays | src/omp/cloud/encrypted_memory.py:85-126 | over any later steady run a record still at version 1 has the content its write gave |
| CloudOutcomes.RepeatedWrite | src/omp/cloud/encrypted_memory.py:85-126 | a repeated write changes nothing and answers what reading the record under its key answers |
| CloudService.EncryptedCloudMemoryService.Update | src/omp/cloud/encrypted_memory.py:159-183 | new state and answer of an update, with the stale vector dropped |
| CloudOutcomes.UpdateOutcome | src/omp/cloud/encrypted_memory.py:159-183 | an update of the owner's record at the expected version applies the given fields, keeps the others and the provenance, drops the vector and touches no other record; any other is refused without a trace |
| CloudService.EncryptedCloudMemoryService.StoreEmbedding | src/omp/cloud/encrypted_memory.py:185-213 | stores the vector exactly for the owner's active record at the expected version |
| CloudOutcomes.StoreEmbeddingOutcome | src/omp/cloud/encrypted_memory.py:185-213 | a vector is stored exactly for the owner's active record at the expected version |
| CloudService.EncryptedCloudMemoryService.Forget | src/omp/cloud/encrypted_memory.py:223-236 | new state and answer of a forget |
| CloudOutcomes.ForgetOutcome | src/omp/cloud/encrypted_memory.py:223-236 | a forget answers true exactly for the owner's record that was not forgotten before; record and vector are gone and the ledger has the time; otherwise records, vectors and ledger are as before |
| CloudService.EncryptedCloudMemoryService.DeleteOwner | src/omp/cloud/encrypted_memory.py:238-259 | the loop buries exactly the owner's records and counts them |
| CloudOutcomes.DeleteOwnerOutcome | src/omp/cloud/encrypted_memory.py:238-259 | deleting an owner removes exactly that owner's records, vectors and keys, counts them and puts each in the ledger |
| CloudService.EncryptedCloudMemoryService.TakeBackup | src/omp/cloud/encrypted_memory.py:261-274 | every record and, entry by entry, the whole deletion ledger |
| CloudService.EncryptedCloudMemoryService.Restore | src/omp/cloud/encrypted_memory.py:276-337 | new state and answer of a restore: ledger first, then validation, then the swap without deleted records |
| CloudOutcomes.RestoreOutcome | src/omp/cloud/encrypted_memory.py:276-337 | exactly which backups are accepted, and that the store then holds their records, vectors and keys but for what the ledger names |
| CloudService.EncryptedCloudMemoryService.RewrapAll | src/omp/cloud/encrypted_memory.py:344-367 | the two loops, fields set aside and then put in place, change all fields or none |
| CloudOutcomes.RewrapAllowedIff | src/omp/cloud/encrypted_memory.py:344-367 | a rewrap succeeds exactly when the version does not go back and each field has that version already or can be moved to it |
| CloudService.ReembedMemory | src/omp/cloud/worker.py:205-238 | with any calls between its read and its store: ready means that the store is what those calls left with this one vector added, and that the vector is fresh unless they put another form of the record in place; anything else means the handler changed nothing |
| Worker.EnqueueKeepsInv | src/omp/cloud/worker.py:90-105 | enqueueing keeps job table and both indices consistent, whenever what is inserted has a new id; a job an index answers for may come again |
| Worker.ReusedIdBreaksIndices | src/omp/cloud/worker.py:101-104 | an accepted job leaves the indices one to one with the table exactly when its id is new |
| WorkerSafety.StepKeepsInv | src/omp/cloud/worker.py:90-202 | every step, the two halves of an attempt and restarts from any snapshot included, keeps job table, error flags and both indices consistent |
| WorkerSafety.ReachableInv | src/omp/cloud/worker.py:90-202 | so over every run whose inserted jobs have distinct ids, whatever overlaps, dedupe and nonce indices are one to one with the table |
| WorkerSafety.CallsAreCounted | src/omp/cloud/worker.py:107-127 | over every such run the handler calls of a job are the attempts it counts and those that restarts made it forget |
| WorkerSafety.BudgetKeptIff | src/omp/cloud/worker.py:114-125 | without restarts a run keeps a job's budget if and only if each of its handler calls found the budget not used up |
| WorkerSafety.RetriesAreBounded | src/omp/cloud/worker.py:107-127 | over a run in which no attempt of the job begins while another is open and no restart brings it back with its budget used up, its attempts stay within the maximum and its handler is called at most that often beyond the calls restarts forgot |
| WorkerSafety.StatesMean | src/omp/cloud/worker.py:107-127 | over such a run without restarts pending is 0 attempts, or 1 while the first is at work; failed is below the maximum, or up to it at work; dead-letter is exactly the maximum; finished jobs are not at work |
| WorkerSafety.OverlapBreaksBudget | src/omp/cloud/worker.py:114-126 | with a budget of one, two overlapping calls call the handler twice and turn a ready job into a dead letter |
| WorkerSafety.TerminalIsAbsorbing | src/omp/cloud/worker.py:107-127 | without restarts a ready, stale or dead-letter job never changes again, whatever is run, if and only if no attempt of it is still open |
| Worker.RestartIsProjection | src/omp/cloud/worker.py:135-202 | restoring a worker's own snapshot, taken at any moment, gives exactly its pending and failed jobs and the indices restricted to them if and only if no envelope in it has expired; otherwise nothing changes |
| WorkerSafety.RestartTakesOver | src/omp/cloud/worker.py:157-202 | a worker that takes over such a snapshot is consistent, and no attempt left open from before works on its jobs |
| WorkerSafety.RestartKeepsBudgetIff | src/omp/cloud/worker.py:135-202 | from then on, run one attempt at a time, a job keeps its budget if and only if the snapshot was not taken while the last attempt of that budget was at work |
| WorkerSafety.RestartBreaksBudget | src/omp/cloud/worker.py:135-202 | with a budget of one: a snapshot in the middle of the attempt, a restart and another attempt, which is the second call of the handler |
| WorkerService.LocalTenantWorker.EnqueueJob | src/omp/cloud/worker.py:90-105 | new tables and answer of an enqueue, with its checks in order |
| JobOutcomes.EnqueueOutcome | src/omp/cloud/worker.py:90-105 | a genuine job is answered by the one queued under its dedupe key, refused when its nonce was used, and otherwise queued as it is, pending and without attempts; anything else is refused without a trace |
| JobOutcomes.EnqueueAgain | src/omp/cloud/worker.py:90-105 | enqueueing a queued job again while its envelope is valid answers it and changes nothing |
| JobOutcomes.GenuineMeans | src/omp/cloud/worker.py:63-105 | what makes an envelope and its references acceptable |
| WorkerService.LocalJob.Begin | src/omp/cloud/worker.py:110-116 | what an attempt changes before the handler is awaited, and whether it is called |
| JobOutcomes.BeginOutcome | src/omp/cloud/worker.py:107-116 | a finished job stays as it is, a valid envelope costs one attempt, and an invalid one costs none and sets the job back |
| WorkerService.LocalJob.Conclude | src/omp/cloud/worker.py:117-126 | what it changes once the handler has answered |
| JobOutcomes.FinishOutcome | src/omp/cloud/worker.py:114-127 | a job becomes ready or stale exactly when its handler returned that; anything else makes it a dead letter when its budget is used up and a failed job otherwise |
| JobOutcomes.OnlyAnswersFinish | src/omp/cloud/worker.py:107-127 | no step makes a job ready or stale but the end of one of its attempts whose handler returned that |
| WorkerService.LocalTenantWorker.RunJob | src/omp/cloud/worker.py:107-127 | the two halves of an attempt around whatever else runs while the handler is awaited; a failed envelope check consumes no attempt |
| WorkerService.LocalTenantWorker.TakeSnapshot | src/omp/cloud/worker.py:135-155 | one signed item per job |
| WorkerService.LocalTenantWorker.Restore | src/omp/cloud/worker.py:157-202 | all items accepted and new job objects swapped in, or the worker unchanged; open attempts keep their old objects |
| Reembedding.Database.ListForReembedding | src/omp/adapters/postgres/repository.py:759-770 | the first `limit` eligible ids beyond the cursor, ascending |
| Reembedding.Database.UpsertVector | src/omp/adapters/postgres/repository.py:772-812 | refuses a profile that is not semantic; writes the row exactly when the memory is still at the expected version, and no other row |
| Reembedding.Database.CoverageCounts | src/omp/adapters/postgres/repository.py:814-845 | the sizes of the eligible set and of the version join |
| Reembedding.Database.Cutover | src/omp/adapters/postgres/repository.py:847-865 | switches all eligible memories exactly when the counts agree, and changes nothing otherwise |
| Reembedding.CountsAgree | src/omp/adapters/postgres/repository.py:814-845 | the two counts are equal if and only if every eligible memory has a vector for its current version |
| Reembedding.CutoverIsSafe | src/omp/adapters/postgres/repository.py:604-613 | after a cutover no memory of the owner is left at the old dimension, each switched one meets the join conditions of search and the others are as before |
| JobOutcomes.EligibleMeans | src/omp/adapters/postgres/repository.py:759-770 | the owner's memories of the legacy dimension, in the bound tenant if there is one |
| JobOutcomes.SwitchMeans | src/omp/adapters/postgres/repository.py:847-865 | a cutover changes the descriptor of exactly the eligible memories and nothing else |
| JobOutcomes.CutoverFindsContent | src/omp/adapters/postgres/repository.py:604-613 | after a full pass and the cutover search finds each memory that can be embedded under the new profile by the vector of its content |
| Reembedding.RestBeyond | src/omp/adapters/postgres/repository.py:759-770 | what lies beyond the n-th eligible id is the rest of the ascending sequence |
| Reembedding.StopAndResume | src/omp/application/reembedding.py:50-79 | stopping after any batch and resuming at its last id gives the tables of one uninterrupted run |
| Reembedding.FullRunReady | src/omp/application/reembedding.py:79-103 | after a full run the counts agree if and only if each eligible memory can be embedded or was already covered |
| Reembedding.Database.ProcessBatch | src/omp/application/reembedding.py:50-79 | stores the vectors of the page that can be embedded and counts the others as failed |
| JobOutcomes.PassStores | src/omp/application/reembedding.py:50-79 | a pass stores, for each memory it can embed, the vector of its content at its current version under the new profile, and leaves every other row and all memories as they were |
| Reembedding.Database.RunLoop | src/omp/application/reembedding.py:50-79 | the loop ends, visits each eligible id beyond the resume point once in order, satisfies completed + stale + failed = eligible and leaves tables that do not depend on the batch size |
| Reembedding.Database.RunJob | src/omp/application/reembedding.py:35-103 | the whole job: refused owner, batch size or profile and refused cutovers, what is stored and switched, and every count and the last id of the report |
| RateLimiter.TenantWindowRateLimiter.Allow | src/omp/adapters/mcp/adapter.py:90-100 | over the run of all requests so far, accepts exactly when fewer than `maximum` accepted calls of the tenant and tool in the full history lie in the last window |
| JobOutcomes.RequestOutcome | src/omp/adapters/mcp/adapter.py:90-100 | a request is accepted exactly when fewer than `maximum` calls accepted before it, of its tenant and tool, lie in the window that ends with it |
| RateLimiter.PopExpired | src/omp/adapters/mcp/adapter.py:94-97 | drops exactly the instants at or before the start of the window |
| RateLimiter.NoWindowOverflows | src/omp/adapters/mcp/adapter.py:67-100 | over any non-decreasing run no half-open window anywhere holds more than `maximum` accepted calls of a tenant and tool |
| RateLimiter.ClosedWindowBound | src/omp/adapters/mcp/adapter.py:94-97 | a window with its start included holds at most twice `maximum`, and at most `maximum` exactly when the calls accepted at its start leave room for the others |
| RateLimiter.ClosedWindowIsTight | src/omp/adapters/mcp/adapter.py:94-100 | for every `maximum` and window length some run reaches twice `maximum` |
| RateLimiter.KeysAreIndependent | src/omp/adapters/mcp/adapter.py:90-100 | what one key is granted depends on its own calls alone |
| Calibration.ComputeOutcome | src/omp/evals/semantic_harness.py:184-237 | keep, sort, cut and collect the failed checks, as the outcome function defines |
| CalibrationMeaning.ServedMeans | src/omp/evals/semantic_harness.py:184-216 | what is served reaches the threshold, is in order of weighted score, and leaves something out only for the limit and with no higher score |
| CalibrationMeaning.OutcomeMeans | src/omp/evals/semantic_harness.py:216-237 | the outcome lists the ids served, and a check fails exactly when some served memory has another owner, state, space or type |
| CalibrationMeaning.SharesMean | src/omp/evals/metrics.py:24-33 | precision times the number of results looked at is the number of them whose label is positive, intrusion the same for label zero; both lie between 0 and 1 and so does their sum; precision is 1 exactly when something is returned and all of it is relevant, and 0 exactly when nothing relevant is |
| CalibrationMeaning.PrecisionAverages | src/omp/evals/metrics.py:51-66 | precision over many queries is the average over the positive ones |
| CalibrationMeaning.IntrusionAverages | src/omp/evals/metrics.py:51-67 | intrusion is the average over all |
| CalibrationMeaning.PrecisionExtremes | src/omp/evals/metrics.py:51-66 | average precision is 1 exactly when every positive query returns something and only relevant ids among its first five, and 0 exactly when none returns a relevant one there |
| CalibrationMeaning.AbstentionMeans | src/omp/evals/metrics.py:36-38 | the share of the queries to abstain from that return nothing |
| CalibrationMeaning.IsolationMeans | src/omp/evals/metrics.py:41-48 | isolation is full exactly when there are outcomes and none fails a check |
| CalibrationMeaning.ConstraintsMean | src/omp/evals/semantic_harness.py:538-543 | the constraints in terms of counts of queries, failed checks and slices |
| CalibrationMeaning.GridMeans | src/omp/evals/semantic_harness.py:520 | the 41 thresholds run from 0.50 to 0.90 in steps of 0.01 |
| CalibrationMeaning.FoldMeans | src/omp/evals/semantic_harness.py:495-499 | every fifth episode belongs to the same fold |
| CalibrationMeaning.GradesMean | src/omp/evals/semantic_harness.py:525-537 | each query is graded by its own ranking against its own labels |
| Calibration.BestIsBest | src/omp/evals/semantic_harness.py:560-562 | the selected threshold passes the constraints, has the highest precision and then the highest value; none means that none passes |
| CalibrationMeaning.SelectionMeans | src/omp/evals/semantic_harness.py:538-562 | the selected threshold passes and is at least as precise as any passing one, and higher when equal; when some passing threshold returns only relevant ids so does the selected one, and when the selected one returns no relevant id no passing one does |
| Calibration.SelectThreshold | src/omp/evals/semantic_harness.py:525-562 | the walk over the grid finds it |
| Calibration.SelectionIgnoresValidation | src/omp/evals/semantic_harness.py:509-562 | any change to rankings or labels of a fold's validation queries leaves its threshold as it was |
| Calibration.SelectionSeesCalibrationOnly | src/omp/evals/semantic_harness.py:522-562 | two suites with the same calibration queries and the same data about them select the same threshold |
| Calibration.FoldsPartition | src/omp/evals/semantic_harness.py:495-499 | every query is validated in exactly one fold, as often as it occurs, and calibrates in each of the others |
| Calibration.CompleteIffEveryFoldSelects | src/omp/evals/semantic_harness.py:576-590 | the out-of-fold set is complete if and only if every fold that holds a query found a threshold |
| Calibration.Calibrate | src/omp/evals/semantic_harness.py:509-587 | raises exactly for an unnumbered episode, a missing ranking or label set, or a relevant memory that is not known; otherwise each fold's threshold, the out-of-fold outcomes in order and the completeness flag |

## Left out

Idealised:

- SHA-256 and HMAC are injective: digests and signatures are the data they cover.
- AES-GCM is symbolic: decryption succeeds only under the same key and associated data. Base64 and JSON framing are left out.
- `uuid4` returns unused identifiers, and identifiers are naturals in the order of their text.
- `embed`, the cosine and a job's handler are arbitrary functions or inputs; a provider that raises is `None`.
- Floats are reals, so rounding is that of real numbers, and infinities and not-a-number do not occur.
- The clock is an input. All instants are aware and on one axis; naive datetimes are not modelled.
- Owner strings are in the form built from the tenant. Strings are sequences of characters.

Weaker than the code:

- Service.MemoryApplicationService.Write: which live holder a repeated write answers, when several imported memories share its key, is left open; it follows dictionary order. Without imports there is only one (`KeyedWrites.RepeatedCreation`).
- Service.MemoryApplicationService.Capture: the same for captures.
- CloudService.EncryptedCloudMemoryService.RewrapAll: which of several failures is raised depends on dictionary order; the model says only that one is.
- CloudService.EncryptedCloudMemoryService.Restore: the kinds of validation failure are merged into one, and a snapshot record without version or state, which the code accepts, cannot be expressed.
- Service.InMemoryStore.ListRelations: says which relations are returned, not in which order.
- Reembedding.Database.RunLoop: assumes that nobody else writes this owner's memories while the loop runs, so no row is counted stale.
- Calibration.Calibrate: the metrics reported per fold, the slices by memory type, space and state and the final decision text are not modelled; the kinds of exception are merged.
- CloudSafety.ReembedIsFresh: the master key of the key service stays the same over the run.
- CloudService.EncryptedCloudMemoryService.TakeBackup: the order of the ledger entries, by owner and id, is not stated.
- Reembedding.Database.ProcessBatch: the same quiescence as the loop.
- Calibration.ComputeOutcome: the returned and target metadata of an outcome are not modelled.

Not modelled:

- `search` and `list_inbox`: they read like recall with fewer rules.
- The rest of the PostgreSQL adapter, its schema, migrations and row-level security.
- MCP, HTTP, CLI, SDK and server composition, and the wire export in `src/omp/server/admin.py`, which drops fields.
- Token verification, magic links, sessions and synthetic identities.
- Cancellation of a running handler, after which an attempt is neither open nor concluded.
- Embedding providers, the web interface, connector fixtures and demo programs.
