# Elektra, modelled and verified

Elektra keeps configuration as KeySets - sorted sequences of uniquely named keys - and reads and writes them
through backends that are mounted into one name space. This project models the parts of it whose correctness
is not visible from any single function, and proves what they guarantee together:

- the algebra of diffs: a two-cursor difference, appending, cutting and undoing (`Changes`, `Diffs`, `ElektraDiff`);
- the division of a KeySet over nested mountpoints in one pass, its agreement with the simple lookup, merging,
  and the selection of mountpoints for a parent key (`Mountpoints`, `Backends`);
- `kdbSet` as a phased commit protocol: what is dropped before it starts, the order of its phases, rollback, the
  record lock, and what its error record says afterwards (`Pruning`, `Protocol`, `Answers`,
  `Outcomes`, `Phases`, `KdbSet`, `CallRules`, `SetRules`, `Determined`, `PartialCommit`, `Initialization`);
- the ring of warnings and the first-error rule, for one key and for whole runs (`ErrorRecord`, `Reports`,
  `ParentKeys`, `RunReports`, `ReportRules`);
- streaming SHA-256 against FIPS 180-4, and the specification token built on it (`Sha256Spec`, `Sha256Constants`,
  `Sha256Example`, `Sha256`, `KeyTexts`, `Token`);
- the reference implementation of canonical key names (`ArrayParts`, `NameParts`, `CanonicalNames`, `NameEdits`).

`KeyNames`, `KeySets` and `Cutting` hold the base: names and their byte order, lookup, append, subtract and cut.
Objects that the C code updates in place are classes (`ElektraDiff`, `Backend`, `ErrorKey`, `ParentKey`,
`Context`, `Kdb`); a KeySet is a sequence that is always sorted, so "lookups agree" determines it.

`dafny verify dfyconfig.toml` checks everything.

## How to read the main results

Diffs. A diff is read as one change per name (`Diffs.At`). Append composes the changes, undo takes them back.
`Diffs.DiffsCompose` is the law that diffs compose, with its exact limit; `ElektraDiffs.FoldAndUndo` is the law
for whole runs of versions, which has no limit.

kdbSet. Plugins and hooks are an arbitrary stream of answers (`Answers.Plugins`): any return code, any keys with
proper metadata, any errors and warnings. A run is described by its trace, and `Answers.Tied` says that the events of
a trace are exactly the answers between two positions of the stream; what does not come from an answer is fixed too:
a call is left out exactly where the plugin lacks the function (`Protocol.IsPhaseRun`), and the second division fails
exactly when a key has no place (`Outcomes.FactsHold`). `Protocol.IsRun` lists the possible shapes;
`KdbSet.Set` proves that every call has one of them over exactly the backends that need a write, and ties it to the
answers; the lemmas of `Protocol` say what holds of every such trace, and `KdbSet.SettledSuccess` when it succeeds.
`CallRules.FunctionsCalled` and `CallRules.RunInTurn` say which functions are called and in which order, `SetRules` with
which keys, and `ReportRules` what is on record of what went wrong.
`Determined.SetDetermined` says that nothing is left open: inputs and answers fix the outcome. The error record is
treated the same way: `RunReports.RunActs` lists what a trace and its answers do to the record, `Reports.Replay` says what that amounts to,
and `KdbSet.Set` proves that the parent key has exactly this record. `ParentKey.Valid` says that the metadata is
exactly what the log amounts to.

Behaviour worth knowing, with the lemmas and contracts that state it exactly:

- Diffs of keys in the meta namespace need not compose: the comparison of KeySets does not look at the metadata of
  such keys, append does (`Diffs.DiffsCompose`, `ElektraDiffs.DriftedDiffs`).
- A cascading `ksCut` does not visit the default namespace. It still takes keys there when its last run, which starts
  at the cascading name itself, gets that far (`Cutting.CutTakes`, `Cutting.DefaultCutExamples`). So the keys that
  `kdbSet` keeps in `allKeys` for a cascading parent may include stale defaults (`KdbSet.TrackedAgrees`).
- With `default:/` mounted, a mountpoint inside it is found by `backendsFindParent` but gets no keys from
  `backendsDivide` (`Mountpoints.TargetIsRoute`, `Mountpoints.TargetIsNotRouteExample`). A new key of such a mountpoint is
  not stored (`KdbSet.NothingLost`, `KdbSet.LostDefaultExample`).
- The error "Couldn't divide keys into mountpoints at start of kdbSet" cannot occur (`KdbSet.CollectedIsPlaced`);
  the one after spec removal can, when a plugin leaves keys that no remaining backend owns.
- The first error of a run survives, with one exception: a failing record lock that reported an error replaces it
  (`RunReports.FirstErrorSurvives`, `RunReports.FirstErrorReplacedExample`, `KdbSet.SettledError`).
- A failing spec or lock hook that reports nothing makes `kdbSet` return -1 without an error
  (`RunReports.SilentFailure`, `RunReports.SilentFailureExample`).
- The documentation of `kdbSet` says that on errors no configuration file is modified. A failing commit phase still
  calls the remaining backends, so this holds exactly when at most one backend is written, or one of them cannot commit
  (`Protocol.FailureCommitsNothingIff`, `PartialCommit.HalfCommittedEnd`).
- Removing a cascading name from a diff can forget up to three changes, one of each kind and each in its own namespace
  (`ElektraDiffs.ElektraDiff.RemoveKey`).
- The unlock hook also runs on paths that never took the lock (`Protocol.IsRun`).
- Keys that share their data are not compared by type, so a key of the meta namespace that only starts to be marked as
  binary counts as unchanged; for all other keys the mark itself is a difference (`Changes.ValueDifferentIff`,
  `Changes.SharingDoesNotMatter`).
- The read-only mark is cleared before a backend is found to be initialized already, so it lasts for one
  initialization only (`Initialization.InitBackends`).
- After more than a hundred warnings, copying them changes their order (`ErrorRecord.SlotOrderInTime`).
- The bare `%` name can come out of `canonicalize` although it is rejected as input
  (`CanonicalNames.CanonicalizeIdempotent`).

## Model

| member | source | states |
|---|---|---|
| `KeyNames.LtIsPartOrder` | src/libs/elektra/keyset.c:694-705 | the order of the unescaped bytes is the order by namespace and then part by part, for all pairs |
| `KeyNames.NamespacesInOrder` | src/libs/elektra/keyset.c:694-705 | names in different namespaces sort in the order cascading, meta, spec, proc, dir, user, system, default |
| `KeyNames.LtTransitive` | src/libs/elektra/keyset.c:694-705 | with LtIrreflexive and LtTotal: the order is a strict total order on names |
| `KeyNames.LtTotal` | src/libs/elektra/keyset.c:694-705 | any two names are equal or ordered in exactly one way |
| `KeyNames.UnescapedInjective` | src/libs/elektra/keyset.c:694-705 | two names have the same unescaped bytes exactly when they are the same name |
| `KeyNames.BelowOrSameBytesCorrect` | src/libs/elektra/keytest.c:159-209 | the byte comparison of keyIsBelowOrSame decides exactly the part-wise relation, including its treatment of cascading names and roots |
| `KeyNames.BelowSortsAfter` | src/libs/elektra/keytest.c:159-209 | a name sorts at or before everything below it |
| `KeyNames.Contiguous` | src/libs/elektra/keytest.c:159-209 | whatever sorts between a name and a descendant is itself a descendant, so hierarchies are contiguous |
| `KeySets.Search` | src/libs/elektra/keyset.c:829-887 | binary search finds the position of a present name, and encodes the insert position of an absent one |
| `KeySets.AppendKey` | src/libs/elektra/keyset.c:968-1060 | the result is sorted; lookups change at the name of the key only |
| `KeySets.Append` | src/libs/elektra/keyset.c:1081-1110 | lookups in the union: the appended KeySet wins |
| `KeySets.Subtract` | src/libs/elektra/keyset.c:2810-2868 | the merge removes exactly the names of the subtrahend |
| `KeySets.Extensional` | src/libs/elektra/keyset.c:694-705 | a KeySet is determined by its lookups |
| `Cutting.Cut` | src/libs/elektra/keyset.c:1496-1690 | every key goes unchanged to exactly one side |
| `Cutting.CutExact` | src/libs/elektra/keyset.c:1496-1690 | with a namespace in the cutpoint, the taken keys are exactly those at or below it |
| `Cutting.CutTakes` | src/libs/elektra/keyset.c:1496-1690 | exactly which keys are taken, for every cutpoint: with a cascading one, what is below its parts in the six visited namespaces, and elsewhere what its last run reaches without meeting a key that stays |
| `Cutting.CascadingCut` | src/libs/elektra/keyset.c:1496-1690 | a cascading cut takes only what is under the cutpoint, and outside the default namespace and the cascading keys all of it |
| `Cutting.DefaultCutExamples` | src/libs/elektra/keyset.c:1646-1671 | in the default namespace a cascading cut takes a key below the cutpoint in one KeySet and leaves it in another |
| `Changes.ValueDifferentIff` | src/libs/elektra/diff.c:15-68 | the branches of keyValueDifferent decide whether the contents differ, exactly unless both keys share data that only one of them marks as binary |
| `Changes.UpToNulFirst` | src/libs/elektra/diff.c:44-49 | a string value counts up to its first zero byte: what counts is a prefix without zero bytes that ends at the end of the data or before a zero |
| `Changes.MissingDataModified` | src/libs/elektra/diff.c:29-36 | a key without data differs from every key with data, even from one with an empty text |
| `Changes.MetaModified` | src/libs/elektra/diff.c:80-113 | one metadata key on each version: the key is modified exactly when the names or the texts of the two differ, and never in the meta namespace |
| `Changes.SharingDoesNotMatter` | src/libs/elektra/diff.c:565-567 | where metadata is compared as well the verdict does not depend on sharing, because the mark is metadata |
| `ElektraDiffs.KeyMetaDifferent` | src/libs/elektra/diff.c:80-113 | true exactly when the metadata differs in a name or a content; the mutual recursion with FindDifferences terminates |
| `ElektraDiffs.KeyDifferent` | src/libs/elektra/diff.c:184-228 | value first, then - outside the meta namespace - metadata: true exactly when the KeySet comparison tells the keys apart |
| `ElektraDiffs.FindDifferences` | src/libs/elektra/diff.c:131-268 | the two-cursor merge with its bounded number of rounds yields, name by name, the set-theoretic difference of the non-cascading keys in scope |
| `ElektraDiffs.Calculate` | src/libs/elektra/diff.c:278-301 | the new diff is the difference of the two KeySets and is well-formed |
| `Diffs.TextRecorded` | src/libs/elektra/diff.c:44-49 | what a calculated diff records for two versions of a key without metadata whose values are terminated strings: a modification exactly when the strings differ, whatever follows the terminators |
| `Diffs.BinaryRecorded` | src/libs/elektra/diff.c:51-65 | with the metadata key named binary on both versions: a modification exactly when the data differ in any byte |
| `ElektraDiffs.ElektraDiff.AppendAddedKey` | src/libs/elektra/diff.c:546-595 | an added key of the source composes with what the target records at its name; elsewhere nothing changes |
| `ElektraDiffs.ElektraDiff.AppendModifiedKey` | src/libs/elektra/diff.c:597-655 | a modified key of the source composes with what the target records at its name, using the aligned positions |
| `ElektraDiffs.ElektraDiff.AppendRemovedKey` | src/libs/elektra/diff.c:657-697 | a removed key of the source composes with what the target records at its name |
| `ElektraDiffs.ElektraDiff.Append` | src/libs/elektra/diff.c:523-702 | for any two well-formed diffs the result is well-formed and at every name in scope the composition of both changes; exactly the conflicting names are warned about; an incomplete source leaves the target alone |
| `Diffs.DiffsCompose` | src/libs/elektra/diff.c:523-702 | appending the diff b to c to the diff a to b never conflicts, and gives the diff a to c - same names, same contents - exactly when no metadata of a meta key drifts |
| `ElektraDiffs.ComposeSteps` | src/libs/elektra/diff.c:523-702 | on the objects themselves: calculate twice, append, and compare with calculating in one go; no warning ever, and equal diffs exactly without drift |
| `Diffs.MetaDriftExample` | src/libs/elektra/diff.c:131-268 | three concrete KeySets with drift: a meta key is removed and comes back with metadata of its own |
| `ElektraDiffs.DriftedDiffs` | src/libs/elektra/diff.c:523-702 | on these KeySets the appended steps and the diff calculated in one go are different |
| `Diffs.NoMetaKeysNoDrift` | src/libs/elektra/diff.c:523-702 | without keys in the meta namespace diffs always compose |
| `Changes.ComposeAt` | src/libs/elektra/diff.c:523-702 | at one name, the change composed from two steps is the change between their ends exactly when there is no drift |
| `Changes.ConflictMeans` | src/libs/elektra/diff.c:546-697 | a second change conflicts with the first, which gives a warning, exactly when no state can lie between them |
| `Changes.ComposeProper` | src/libs/elektra/diff.c:523-702 | composition keeps modified pairs really different, even for conflicting inputs |
| `Changes.ComposeFits` | src/libs/elektra/diff.c:958-963 | a change that undoes to the first state still does after one more step is composed onto it |
| `Diffs.ModifiedAligned` | src/libs/elektra/diff.c:634-650 | in a well-formed diff both modified KeySets hold the same names at the same positions, so the positional accesses are right |
| `Diffs.DifferenceWellFormed` | src/libs/elektra/diff.c:131-268 | every calculated diff has disjoint names and complete, really different modified pairs |
| `Diffs.RunStep` | src/libs/elektra/diff.c:523-702 | one more step of a run keeps the accumulated diff fitting to the first version, without conflict |
| `Diffs.UndoRestores` | src/libs/elektra/diff.c:958-963 | undoing a fitting diff gives the first version in scope and leaves every other key untouched |
| `ElektraDiffs.FoldAndUndo` | src/libs/elektra/diff.c:958-963 | over any run of versions: folding the step diffs adds no warning, and undoing the result on the last version restores the first one at and below the parent |
| `ElektraDiffs.ElektraDiff.Undo` | src/libs/elektra/diff.c:958-963 | at every name the recorded change is taken back, and nothing else changes |
| `ElektraDiffs.ElektraDiff.CutOff` | src/libs/elektra/diff.c:421-443 | cutting yields two well-formed diffs with disjoint names that together are the original, split exactly at the names that the cut takes |
| `Diffs.UndoParts` | src/libs/elektra/diff.c:421-443 | undoing both parts of a cut, one after the other, equals undoing the whole diff on any KeySet |
| `Diffs.CutTakesChanges` | src/libs/elektra/diff.c:421-443 | for every cutpoint the cut-off part is what was recorded at the names that the cut takes, the rest is everything else |
| `Diffs.CutSplits` | src/libs/elektra/diff.c:398-409 | cutting the four KeySets separately keeps well-formedness, because the split depends on names alone |
| `ElektraDiffs.ElektraDiff.RemoveSameOrBelow` | src/libs/elektra/diff.c:398-409 | for every cutpoint exactly the changes at the names that the cut takes are gone, everything else is as before, and the diff stays well-formed |
| `ElektraDiffs.ElektraDiff.RemoveOther` | src/libs/elektra/diff.c:456-493 | for every parent exactly the changes at the names that the cut takes stay |
| `ElektraDiffs.ElektraDiff.RemoveKey` | src/libs/elektra/diff.c:501-512 | of the added, of the removed and of the modified keys each, the change that a lookup of the name finds is forgotten; all others stay; for a name in a namespace this is the change at that name |
| `Diffs.PopGet` | src/libs/elektra/keyset.c:2268-2338 | a lookup that takes out what it finds removes exactly the key of that name or, for a cascading name, the key with these parts in the first namespace visited that has one |
| `Diffs.PopWellFormed` | src/libs/elektra/diff.c:501-512 | searching the four KeySets one by one keeps the diff well-formed: both modified KeySets lose the same name |
| `ElektraDiffs.ElektraDiff.IsEmpty` | src/libs/elektra/diff.c:709-718 | three sizes add up to zero exactly when no name has a change |
| `Mountpoints.OwnerOfCorrect` | src/libs/elektra/backends.c:13-39 | walking up from a key finds the deepest mountpoint at or above it, or nothing when there is none |
| `Mountpoints.OwnerUnique` | src/libs/elektra/backends.c:13-39 | a key has at most one deepest mountpoint |
| `Backends.FindParent` | src/libs/elektra/backends.c:13-39 | the loop returns the backend that the key is routed to: the first that is found while the name is shortened, else default:/, else nothing |
| `Mountpoints.RouteIsOwner` | src/libs/elektra/backends.c:13-39 | a key in a namespace is routed to its owner, or to default:/ when it has none |
| `Mountpoints.CascadingRoute` | src/libs/elektra/backends.c:13-39 | a cascading key is routed to the deepest mountpoint above it in proc:/, dir:/, user:/, system:/ or default:/, and of equally deep ones to the first in this order |
| `Backends.DivideInternal` | src/libs/elektra/backends.c:75-119 | for all keys, cascading ones included: the recursion with its shared cursor terminates, stays within the backends, gives every key up to where it stops to the backend it belongs to, and stops only at a key outside its frame |
| `Backends.DecideCorrect` | src/libs/elektra/backends.c:88-115 | the branch taken for a key is right: kept keys belong to that backend, opened mountpoints are next in order, and a key that makes a frame stop is outside everything opened since |
| `Backends.Divide` | src/libs/elektra/backends.c:121-132 | for all keys: true exactly when every key has a target; then each backend holds exactly its keys in order, otherwise the keys before the first homeless one are divided |
| `Mountpoints.TargetIsRoute` | src/libs/elektra/backends.c:75-132 | division and lookup agree on a placed key in a namespace exactly unless default:/ is mounted and the deepest mountpoint of the key lies inside it |
| `Mountpoints.CascadingTarget` | src/libs/elektra/backends.c:78-115 | cascading keys go to default:/, or without it to the first mountpoint if they are below its parts |
| `Mountpoints.TargetIsNotRouteExample` | src/libs/elektra/backends.c:75-132 | default:/ and default:/a with the key default:/a/b: division and lookup disagree |
| `Mountpoints.TargetMissing` | src/libs/elektra/backends.c:75-132 | a key has no target exactly when nothing owns it and it does not sort before the first mountpoint with default:/ mounted, or is no cascading key below the first mountpoint without |
| `Backends.PortionGet` | src/libs/elektra/backends.c:121-132 | a backend's part of the division has exactly the keys whose target it is |
| `Backends.Merge` | src/libs/elektra/backends.c:134-148 | the keys of all backends outside the default namespace are appended and their sizes recorded |
| `Backends.MergeRebuilds` | src/libs/elektra/backends.c:134-148 | merging what was divided gives exactly the divided KeySet without the keys of default:/ |
| `Backends.DivideRebuilds` | src/libs/elektra/backends.c:121-148 | dividing what was merged gives every backend outside the default namespace exactly its keys back, if they were in place |
| `Backends.ForParentKey` | src/libs/elektra/backends.c:41-73 | the selection holds exactly the mountpoints under the parent, the routes of the parent in each of its namespaces, and default:/ |
| `Backends.SelectionExact` | src/libs/elektra/backends.c:41-73 | a mountpoint is selected exactly when it is at or below the parent, is default:/, or owns the parent in its namespace - for a cascading parent in spec:/, proc:/, dir:/, user:/, system:/ or default:/ |
| `Backends.SelectionKeepsOwners` | src/libs/elektra/backends.c:41-73 | for every key under the parent, its owner in the full mount table is selected and is still its owner there |
| `Pruning.IsUnchanged` | src/libs/elektra/kdb.c:2470-2484 | the diff minus all nested listed backends is empty exactly when every key exposed to the mountpoint equals its entry in allKeys |
| `Pruning.HierarchyOf` | src/libs/elektra/kdb.c:2472-2475 | the positions of a hierarchy are exactly those of the names at or below its root |
| `Pruning.NestedStillListed` | src/libs/elektra/kdb.c:2465-2503 | when a backend is examined, every selected backend nested below it is still listed despite the removals before it |
| `Pruning.SameVerdict` | src/libs/elektra/kdb.c:2465-2503 | so the verdict against the shrunken list is the verdict against the full selection |
| `Pruning.Prune` | src/libs/elektra/kdb.c:2465-2503 | exactly the writable backends that changed are left, in order, and the record of the parent key gets exactly one warning per changed read-only backend, in order |
| `Pruning.ExposedIsOwned` | src/libs/elektra/kdb.c:2472-2481 | what is below a mountpoint but not below a nested one is what it owns |
| `Pruning.UnchangedMeansEqual` | src/libs/elektra/kdb.c:2465-2503 | a backend's keys equal, name by name, the allKeys entries it owns exactly when it counts as unchanged and holds only keys it owns |
| `Pruning.DividedKeysOwned` | src/libs/elektra/kdb.c:2457-2463 | after the division a backend holds only keys it owns, default:/ with inner mountpoints aside |
| `Initialization.InitBackends` | src/libs/elektra/kdb.c:1354-1432 | every attempt returned the code of its answer and the record says exactly what these answers make it say; success exactly when all backends are initialized afterwards; a backend is marked read-only exactly when this pass initialized it so, hence never one that was initialized before |
| `Initialization.InitFailuresHeard` | src/libs/elektra/kdb.c:1370-1415 | after the pass every backend without kdbInit function and every failed initialization is on record as a warning with its mountpoint |
| `Phases.CallBackend` | src/libs/elektra/kdb.c:2131-2219 | the event is the answer of the plugin, taken from the stream once, or the lack of a function; the keys it leaves are the answered ones; the record says its notes and a warning exactly for the failing cases; the parent key has the name and storage unit of the backend, and its flags are restored |
| `Phases.RunSetPhase` | src/libs/elektra/kdb.c:2119-2242 | every backend is attempted once, in order, whatever the others return, and the attempts are the answers of the plugins; success exactly when all succeeded; the record is exactly what the phase makes it; a blocked phase keeps the standing error, an unblocked failed one leaves one |
| `Phases.ResolveBackendsForSet` | src/libs/elektra/kdb.c:2033-2111 | as a phase, tied to the answers; after success each backend has the storage unit its plugin answered |
| `KdbSet.LockRecord` | src/libs/elektra/kdb.c:2559-2570 | the lock event is the answer of the hook; its record is copied over exactly when the lock fails, and its error then replaces the standing one |
| `KdbSet.RedivideKeys` | src/libs/elektra/kdb.c:2550-2557 | succeeds exactly when every merged key has a target among the backends left; otherwise an error is set |
| `KdbSet.MergeBackends` | src/libs/elektra/kdb.c:2528-2530 | all keys of all backends outside the default namespace are merged, and their numbers recorded for the next run |
| `KdbSet.Gather` | src/libs/elektra/kdb.c:2516-2557 | the resolver phase gets the keys the backends hold; the second division succeeds exactly when all keys left by the pre-storage phase, merged and stripped, have a place; then every backend goes on with its share of them |
| `KdbSet.RemoveSpecMeta` | src/libs/elektra/kdb.c:2529-2548 | the event and the keys are the answer of the spec hook, which cannot change which keys are there; its failure ends the forward stages |
| `KdbSet.Forward` | src/libs/elektra/kdb.c:2516-2600 | the stages are taken in order and the first failing one is the last; a backend is called exactly when its plugin has the function, and all events are answers; resolver and storage phase get exactly their keys, the second division fails exactly when a key has no place, and the record is exactly what the stages make it |
| `KdbSet.RollBack` | src/libs/elektra/kdb.c:2633-2642 | all three rollback phases run for every backend, called exactly where the plugin has the function, with its answers, and leave the standing error alone |
| `KdbSet.Complete` | src/libs/elektra/kdb.c:2602-2621 | post-commit runs blocked for every backend, called exactly where the plugin has the function, then the notification hooks and the record hook, all of them answers, and the record is exactly what they make it |
| `KdbSet.Collect` | src/libs/elektra/kdb.c:2440-2455 | exactly the caller's keys at or below a selected mountpoint are copied |
| `KdbSet.CollectedIsPlaced` | src/libs/elektra/kdb.c:2457-2463 | every collected key has a target, so the first division never fails |
| `KdbSet.CheckInitialized` | src/libs/elektra/kdb.c:2401-2433 | fails exactly when a selected backend is not initialized, with one warning for each of them and one error |
| `KdbSet.CopySpec` | src/libs/elektra/kdb.c:2435-2440 | event, keys and notes are the answer of the spec hook, and the run ends exactly when it failed |
| `KdbSet.CheckArguments` | src/libs/elektra/kdb.c:2349-2394 | exactly the unacceptable arguments are turned down, with one error on a record that was cleared first |
| `KdbSet.Execute` | src/libs/elektra/kdb.c:2516-2657 | return 1 with all forward stages, or -1 with a failing prefix and the rollback; calls, answers, given keys and the second division as for Forward; the record is exactly what the run makes it; name and value of the parent key are restored; allKeys changes on success only |
| `KdbSet.Set` | src/libs/elektra/kdb.c:2343-2658 | for any arguments, backends and answers: the trace is a run of the protocol over exactly the backends that need a write, with calls exactly where a plugin has the function and exactly the answers given; resolver and storage phase get exactly the keys of the plan, and the second division fails exactly when a key has no place; the run ends before its first phase exactly when a selected backend is not initialized or the spec hook fails, and otherwise returns 0 exactly when nothing is to be written; the error record is exactly what trace and answers make it; the backends stay mounted as they are, and of the facts about them only the number of keys changes, to what the plugin left in the pre-storage phase if the run got that far |
| `SetRules.OpenedKeys` | src/libs/elektra/kdb.c:2440-2520 | in every run the resolver phase gives a written mountpoint its share of the caller's keys below the selection |
| `SetRules.StoredKeys` | src/libs/elektra/kdb.c:2526-2575 | in every run the storage phase gives a written mountpoint its share of what the plugins left in the pre-storage phase, merged without default:/, or of the spec hook's keys where it kept the names |
| `SetRules.NumbersAfterSuccess` | src/libs/elektra/backends.c:134-148 | after a run that returned 1 the number on record for a written mountpoint outside default:/ is that of the keys its plugin left in the pre-storage phase; all others stay |
| `Determined.SetDetermined` | src/libs/elektra/kdb.c:2343-2658 | what kdbSet returns and leaves behind - return value, keys of the caller, error record, allKeys, facts about the backends, position in the answers - is fixed by what it starts from and by the answers |
| `Determined.SameEnding` | src/libs/elektra/kdb.c:2343-2658 | two endings that meet the contract on the same inputs have the same plan, members, calls, hooks, codes, return value and record |
| `Determined.SameForward` | src/libs/elektra/kdb.c:2516-2600 | two passes through the stages with the same answers make the same calls and both succeed or both fail |
| `KdbSet.SettledSuccess` | src/libs/elektra/kdb.c:2343-2631 | 1 is returned exactly when all selected backends are initialized, something is to be written, every written backend has the functions and answers every phase up to the commit with success or no update, no hook fails, and the second division has a place for every key |
| `Outcomes.SuccessIff` | src/libs/elektra/kdb.c:2516-2600 | for every run of the protocol that is tied to answers: success as a condition on functions, answers and the second division |
| `KdbSet.SettledError` | src/libs/elektra/kdb.c:2633-2657 | after a failed run the error on the parent key is the first one reported, unless a failed lock reported its own; there is none exactly when a hook failed and nobody had reported an error |
| `KdbSet.TrackedAgrees` | src/libs/elektra/kdb.c:2627-2631 | after success allKeys agrees with the caller on every name the caller has or the cut took and is as before elsewhere; for every parent that is everything under it, save the default namespace of a cascading parent |
| `KdbSet.NothingLost` | src/libs/elektra/kdb.c:2395-2503 | every key under the parent that differs from allKeys has its owning backend written, unless that backend is read-only or the key is new in a mountpoint inside a mounted default:/ |
| `KdbSet.WrittenIff` | src/libs/elektra/kdb.c:2465-2503 | a selected mountpoint is written exactly when it is writable and an entry it owns differs from what kdbGet left or the number of its keys is not the recorded one; it is refused exactly when that holds and it is read-only |
| `KdbSet.WrittenWithoutRecord` | src/libs/elektra/kdb.c:2465-2503 | without allKeys a writable mountpoint is written exactly when the number of its keys is not the recorded one |
| `KdbSet.OwnerSees` | src/libs/elektra/kdb.c:2440-2484 | what the owner of a key under the parent is compared with: the key of the caller, or nothing inside a mounted default:/ |
| `KdbSet.LostDefaultExample` | src/libs/elektra/kdb.c:2457-2484 | a new key in a mountpoint inside default:/ leaves that mountpoint unchanged |
| `Protocol.FollowsExtend` | src/libs/elektra/kdb.c:2516-2600 | after a successful prefix one more stage either extends it or is the failing end of the run |
| `Protocol.LaterPhaseNeedsEarlier` | src/libs/elektra/kdb.c:2516-2600 | if any backend is called in a phase, every backend was called exactly once and successfully in each earlier phase; in particular no commit before all are ready |
| `Protocol.EachPhaseOnce` | src/libs/elektra/kdb.c:2516-2657 | in every run each forward phase is either not reached or attempted exactly once per backend in order; with return 1 all of them succeeded |
| `Protocol.LockIsReleased` | src/libs/elektra/kdb.c:2559-2657 | the record lock is taken at most once, and a run that tried to take it ends with its only unlock |
| `CallRules.FunctionsCalled` | src/libs/elektra/kdb.c:2131-2190 | in every run kdbSet is called exactly up to the post-storage phase, kdbCommit exactly from the pre-commit to the post-commit phase and kdbError exactly in the rollback; a call is left out exactly where the plugin lacks that function; after a failure only kdbError is called, after success only the post-commit phase |
| `CallRules.RunInTurn` | src/libs/elektra/kdb.c:2435-2657 | in every run the events keep to the order of the steps, from the spec hook to the unlock |
| `PartialCommit.HalfCommittedEnd` | src/libs/elektra/kdb.c:2590-2642 | over any two mountpoints or more that can commit there are a mount table, keys and answers on which kdbSet can only return -1 with a backend committed |
| `PartialCommit.ClearingFacts` | src/libs/elektra/kdb.c:2523-2580 | the keys that resolver and storage phase get in that run, and its second division, are those of the plan |
| `Protocol.FailureCommitsNothingIff` | src/libs/elektra/kdb.c:2292-2297 | all failing runs over a set of backends commit nothing exactly when there is at most one backend or one of them lacks the set or commit function |
| `ErrorRecord.NextTagSteps` | src/libs/elektra/errors.c:38-89 | the edited buffer names the next slot, modulo 100 |
| `ErrorRecord.ErrorKey.AddWarning` | src/libs/elektra/errors.c:38-89 | the position in the ring and the nine metadata keys of the next slot are written, nothing else changes |
| `ErrorRecord.ErrorKey.SetError` | src/libs/elektra/errors.c:100-126 | an error on a clean record is stored, on any other it becomes a warning |
| `ErrorRecord.ErrorWritten` | src/libs/elektra/errors.c:100-126 | a stored error has its header and all eight fields: what the caller passed, and name and value of the key; other metadata stays |
| `ErrorRecord.WarningRecorded` | src/libs/elektra/errors.c:38-89 | one more warning on a record of ws is a record of ws and that warning: position, slots in use and absent slots |
| `ErrorRecord.RingHoldsLatest` | src/libs/elektra/errors.c:38-89 | after any number of warnings on a fresh key the warnings metadata points at slot (n-1) mod 100 and each slot holds the latest warning of its residue |
| `ErrorRecord.SlotsInUse` | src/libs/elektra/errors.c:38-89 | exactly the first min(n,100) slots exist |
| `ErrorRecord.WarningKeepsError` | src/libs/elektra/errors.c:38-89 | warnings leave the error alone |
| `ErrorRecord.FirstErrorWins` | src/libs/elektra/errors.c:100-126 | a standing error is not changed by a later one |
| `ErrorRecord.CopyError` | src/libs/elektra/errors.c:246-272 | name by name: the error keys of the source win, all warnings and other metadata of the target stay, nothing else is added |
| `ErrorRecord.CopyWarnings` | src/libs/elektra/errors.c:282-358 | the warnings of the source are added in slot order, whatever both rings hold; the error is kept |
| `ErrorRecord.SlotOrderInTime` | src/libs/elektra/errors.c:282-358 | up to a hundred warnings that is their order in time; after an overflow it is the newest block first |
| `Reports.StandingStays` | src/libs/elektra/kdb.c:2119-2242 | however much is reported, the standing error stays |
| `Reports.ErrorsReported` | src/libs/elektra/errors.c:100-126 | while nothing blocks, the recorded errors are exactly the reported ones in order |
| `Reports.BlockedKeepsError` | src/libs/elektra/kdb.c:2121-2234 | a blocked stretch neither adds nor removes an error, whatever is reported in it |
| `RunReports.FirstErrorSurvives` | src/libs/elektra/kdb.c:2343-2658 | in every run that does not succeed the first error said before or in the forward stages survives rollback and return; only a failed lock with an error of its own replaces it |
| `RunReports.FirstErrorReplacedExample` | src/libs/elektra/kdb.c:2559-2570 | the resolver phase reports an error and succeeds, then the lock fails: the run ends with the error of the lock |
| `RunReports.FirstErrorOfSuccess` | src/libs/elektra/kdb.c:2602-2631 | in every run that succeeds the first error survives too; a failing post-commit phase adds none, only the hooks after it can |
| `RunReports.SilentFailure` | src/libs/elektra/kdb.c:2435-2570 | a run fails without an error exactly when all backends are initialized, a spec or lock hook failed, and no answer up to then reported an error |
| `RunReports.SilentFailureExample` | src/libs/elektra/kdb.c:2435-2440 | the spec hook fails and reports nothing: -1 and a clean record |
| `ReportRules.FailuresHeard` | src/libs/elektra/kdb.c:2149-2215 | after every run each call that failed, or for which the plugin lacks the function, is on record as a warning with its mountpoint and phase, and a failed second division as an error or warning |
| `ReportRules.PhaseFailuresHeard` | src/libs/elektra/kdb.c:2219-2239 | each phase in which a call failed or could not be made is on record with an error of its own, as an error or as a warning |
| `ReportRules.NotesHeard` | src/libs/elektra/errors.c:38-126 | whatever a plugin or hook reports in a run is on record in the end, warnings as warnings and errors as errors or warnings |
| `ReportRules.DecisionsHeard` | src/libs/elektra/kdb.c:2401-2503 | each read-only backend whose keys changed and each selected backend that is not initialized is on record as a warning; the latter also make an error |
| `Reports.AllBecomeWarnings` | src/libs/elektra/errors.c:100-126 | once an error stands, everything reported after it becomes a warning, in order |
| `ParentKeys.ParentKey.SetError` | src/libs/elektra/errors.c:100-126 | the metadata stays exactly what the log says: the first error stands, later ones and blocked ones become warnings |
| `ParentKeys.ParentKey.Receive` | src/libs/elektra/errors.c:38-126 | the log becomes exactly the fold of the given notes, stamped with the name and value of the key |
| `ParentKeys.ParentKey.Block` | src/libs/elektra/kdb.c:2121-2128 | the dummy error occupies the error metadata and nothing else |
| `ParentKeys.ParentKey.Unblock` | src/libs/elektra/kdb.c:2228-2234 | taking it away again leaves a clean error record and all warnings |
| `ParentKeys.ParentKey.CopyFrom` | src/libs/elektra/errors.c:368-372 | an error of the source replaces the standing one, its warnings are added |
| `ParentKeys.ParentKey.ClearRecord` | src/libs/elektra/kdb.c:220-227 | errors and warnings are removed, other metadata stays |
| `Sha256Stream.NextIsExtend` | src/libs/ease/sha-256.c:74-82 | the window update is the schedule recurrence of section 6.2.2 of FIPS 180-4 |
| `Sha256Stream.NextWord` | src/libs/ease/sha-256.c:66-82 | slot j of the 16-word window becomes word 16i+j of the 64-word schedule, and the other slots hold the latest words of their residues |
| `Sha256Stream.ApplyRound` | src/libs/ease/sha-256.c:83-113 | the in-place update of the eight variables is one round of the specification |
| `Sha256Stream.ConsumeChunk` | src/libs/ease/sha-256.c:39-120 | the in-place compression of a chunk is the compression function with the full schedule |
| `Sha256Stream.Context.Write` | src/libs/ease/sha-256.c:146-182 | the state stands for all bytes written so far, however they are cut |
| `Sha256Stream.Context.Close` | src/libs/ease/sha-256.c:184-233 | the digest is the SHA-256 of everything written |
| `Sha256Stream.PaddedInOne` | src/libs/ease/sha-256.c:184-233 | with room for the length, one padded block gives the digest |
| `Sha256Stream.PaddedInTwo` | src/libs/ease/sha-256.c:184-233 | without room, two padded blocks give the digest |
| `Sha256Stream.LengthWraps` | src/libs/ease/sha-256.c:184-233 | the byte counter that wraps at 2^64 still gives the 64-bit bit length |
| `Sha256Stream.DigestOf` | src/libs/ease/sha-256.c:126-233 | for every split of a message into writes the digest is the SHA-256 of the concatenation |
| `Sha256Stream.CalcSha256` | src/libs/ease/sha-256.c:235-241 | one call computes the SHA-256 of its input |
| `Sha256Spec.ZeroCountSmallest` | src/libs/ease/sha-256.c:184-233 | the padding of the specification uses the smallest number of zeros, as section 5.1.1 of FIPS 180-4 demands |
| `Sha256Constants.ConstantsAreCubeRoots` | src/libs/ease/sha-256.c:88-100 | constant i is the first 32 bits of the fraction of the cube root of a number that is the first prime after the one before it, from 2 on |
| `Sha256Constants.InitialAreSquareRoots` | src/libs/ease/sha-256.c:132-143 | the initial hash value is made of the first 32 bits of the fractions of the square roots of the first 8 of these primes |
| `Sha256Spec.ChSelects` | src/libs/ease/sha-256.c:84-84 | where the first word has ones the choice is the second word, elsewhere the third |
| `Sha256Spec.MajSelects` | src/libs/ease/sha-256.c:103-103 | where the first two words agree the majority is what they are, elsewhere the third word |
| `Sha256Spec.BigSigma0OfBit` | src/libs/ease/sha-256.c:102-102 | one bit of the argument sets the bits 2, 13 and 22 places to the right of it, round the end |
| `Sha256Spec.BigSigma1OfBit` | src/libs/ease/sha-256.c:83-83 | one bit of the argument sets the bits 6, 11 and 25 places to the right of it, round the end |
| `Sha256Spec.SmallSigma0OfBit` | src/libs/ease/sha-256.c:77-78 | one bit of the argument sets the bits 7 and 18 places to the right of it, round the end, and the one 3 places to the right if there is one |
| `Sha256Spec.SmallSigma1OfBit` | src/libs/ease/sha-256.c:79-80 | one bit of the argument sets the bits 17 and 19 places to the right of it, round the end, and the one 10 places to the right if there is one |
| `Sha256Example.DigestOfAbc` | src/libs/ease/sha-256.c:126-241 | the specification gives the digest that FIPS 180 publishes for the message abc |
| `SpecificationToken.CalculateToken` | src/libs/ease/hash.c:68-99 | the digest is the SHA-256 of the serialized names and metadata of the keys cut below the parent, array parents left out |
| `SpecificationToken.StreamDecodable` | src/libs/ease/hash.c:68-99 | two lists of entries feed equal byte streams exactly when they are equal |
| `SpecificationToken.TokenDistinguishes` | src/libs/ease/hash.c:68-99 | two KeySets feed the hash equal streams exactly when the key names and the names and values of the metadata below the parent, array parents aside, agree in order |
| `SpecificationToken.SpecifiedExactly` | src/libs/ease/hash.c:72-97 | what counts is exactly the names and metadata of the keys whose base name is not # |
| `SpecificationToken.MissingKeyTells` | src/libs/ease/hash.c:68-99 | a key below the parent whose base name is not # and whose name is missing in the other KeySet makes the streams differ |
| `SpecificationToken.ArrayParentSkipped` | src/libs/ease/hash.c:76-79 | a key whose base name is # does not change the stream |
| `SpecificationToken.PlainBelowParent` | src/libs/ease/hash.c:64-66 | with a parent in a namespace other than meta that holds of every two KeySets with proper metadata |
| `KeyTexts.NameTextInjective` | src/libs/ease/hash.c:84-84 | keys with different names feed different escaped names |
| `KeyTexts.NameReadsBack` | src/libs/ease/hash.c:84-84 | the escaped name is canonical and reads back as the namespace in letters and the parts |
| `KeyTexts.RootsSpelled` | src/libs/ease/hash.c:84-84 | cascading names start with a slash, and a root is its namespace with a slash |
| `KeyTexts.MetaNames` | src/libs/ease/hash.c:84-95 | escaped names hold no zero byte, and exactly those of the meta namespace start with meta:/ |
| `ArrayParts.CanonicalIndexAccepted` | scripts/keynames.py:25-50 | for every index up to 2^63-1 the check accepts the canonical part and returns its decimal digits |
| `ArrayParts.AcceptedArrayParts` | scripts/keynames.py:25-50 | the accepted array parts are # alone and # with the decimal digits of a number below 2^63, with or without its underscores |
| `ArrayParts.ArrayPartsSortLikeIndices` | scripts/keynames.py:25-50 | canonical array parts sort like their indices |
| `ArrayParts.ArrayPartStable` | scripts/keynames.py:25-50 | the canonical form of an accepted part is accepted with the same digits |
| `NameParts.PartsOfSlashed` | scripts/keynames.py:103-106 | splitting inverts joining on complete, non-empty parts |
| `NameParts.CanonicalPartCanonical` | scripts/keynames.py:239-318 | the part that is appended for a valid part is canonical |
| `NameParts.EscapeInvertsUnescape` | scripts/keynames.py:348-370 | a canonical part is determined by its unescaped form |
| `NameParts.UnescapeInvertsEscape` | scripts/keynames.py:348-370 | every string is the unescaped form of some canonical part |
| `CanonicalNames.CanonicalizeName` | scripts/keynames.py:113-331 | the loop with its list of collected parts computes the left-to-right reading of the parts, and raises where that fails |
| `NameEdits.DotInserted` | scripts/keynames.py:262-269 | /. put in at the end of any part changes nothing, unless the name was the bare percent name |
| `NameEdits.SlashInserted` | scripts/keynames.py:225-244 | another slash next to a slash or at the end changes nothing, unless the name was the bare percent name |
| `NameEdits.PartTakenBack` | scripts/keynames.py:270-287 | a part followed by /.. can be put in at the end of any part and changes nothing; it makes the name invalid exactly when the part has an illegal escape or a colon in a cascading name |
| `NameEdits.UpAtRoot` | scripts/keynames.py:271-279 | .. at the root is dropped |
| `NameEdits.PartAppended` | scripts/keynames.py:288-318 | one more part comes behind the canonical form of what precedes it, unchanged unless it is an array part, exactly when its escapes are legal and a cascading name gets no colon |
| `NameEdits.IndexAppended` | scripts/keynames.py:288-305 | an array part for any index below 2^63 gets one underscore less than the index has digits |
| `NameEdits.DanglingEscape` | scripts/keynames.py:205-209 | a backslash more at the end of a valid name makes it invalid |
| `NameEdits.CascadingRoot` | scripts/keynames.py:320-330 | the cascading root is canonical |
| `NameEdits.NamespaceAccepted` | scripts/keynames.py:138-190 | exactly the seven namespaces can precede a colon |
| `CanonicalNames.BuiltIsFixed` | scripts/keynames.py:113-331 | a name built of canonical parts is accepted and left as it is, the bare % name aside |
| `CanonicalNames.ResultIsBuilt` | scripts/keynames.py:113-331 | every result is built of canonical parts |
| `CanonicalNames.CanonicalizeIdempotent` | scripts/keynames.py:113-331 | a second pass leaves every result alone, except exactly the bare % names, which it rejects |
| `CanonicalNames.BarePercentExample` | scripts/keynames.py:198-202 | /./% becomes /%, and a second pass rejects that |
| `CanonicalNames.UnescapeInjective` | scripts/keynames.py:334-377 | canonical names unescape to the same namespace and parts exactly when they are equal |
| `CanonicalNames.EveryPartsHaveAName` | scripts/keynames.py:334-377 | any parts but the single empty one are the unescaped form of a canonical name |

## Left out

- `kdbGet`, `kdbOpen`, `kdbClose`, mountpoint parsing, plugin loading and the cache code; of `kdbGet` only the initialization of backends is modelled.
- The OPMPHM hash map behind `ksLookup`: lookups are by the sorted order, which is its documented result.
- `ksBelow` and `ksFindHierarchy` are used by their documented result (the names at or below the root, and for a cascading parent those of every namespace); `ksBelow` on the backends of a cascading parent is assumed to cover the default namespace too.
- Memory, reference counts, copy-on-write, mmap flags, `errno` and log output; NULL arguments outside `kdbSet`, where the functions return at once.
- The accessors, duplication and counters of ElektraDiff: each is settled by its own body.
- ElektraDiffs.ElektraDiff.Append: requires that source and target are different objects and well-formed. Keys with cascading names are looked up like any other, where `ksLookup` would search all namespaces; calculated diffs have none.  The metadata key "callback", a leftover for notification bindings, is not treated specially.
- ElektraDiffs.ElektraDiff.RemoveKey: for a cascading name whose specification in the diff has metadata `default`, `ksLookup` may leave a new key in the KeySet that it searches; such names are excluded.
- Changes.ValueDifferentIff: says what sharing of data does; the diffs compare keys as values that share nothing, which by SharingDoesNotMatter makes a difference only for keys in the meta namespace.
- ElektraDiffs.FindDifferences: always collects all four KeySets; the C function can be called with NULL for those a caller does not need.
- Backends.FindParent: the keys of the mount table carry no metadata that redirects a cascading lookup (override, namespace, fallback, default); TargetIsRoute compares division and lookup for keys in a namespace, CascadingTarget and CascadingRoute say where each sends a cascading key.
- KdbSet.Set: the record of a run is stated in reports, without the name and value that the parent key had at each of them. Plugins and hooks act on the parent key only by reporting errors and warnings and, in the resolver phase, by setting its value; the keys they leave have proper metadata; the hooks of the record plugin are installed all or none; one notification hook stands for one installed set function. Texts of messages are abbreviated, plugin names are left out of them, and one report, with one line number, stands for the same failure in different functions or with different result codes. Which keys a plugin is given is stated for the resolver and storage phases, where kdbSet itself provides them; in between a plugin gets what the previous one left; SetDetermined compares traces without these keys.
- KdbSet.NothingLost: not for new keys of a mountpoint inside a mounted default:/, which the code does lose (LostDefaultExample).
- That unchanged backends are never written across several runs: kdbGet re-adds only refreshed backends to allKeys, so a backend may be written again although nothing changed.
- Initialization.InitBackends: the name that the parent key gets during initialization is a parameter.
- SpecificationToken.CalculateToken: the digest before it is rendered in hexadecimal; keyName is taken to be the canonical escaped name of the reference script, and the value of a metadata key its bytes up to the first zero.
- Sha256Stream.Context.Close: returns nothing, where the C function also returns the buffer it was given.
- CanonicalNames.CanonicalizeName: names are strings of ASCII characters without newlines, the prefix is empty, and debug output is dropped. A cascading name that contains a colon is rejected, as in the script.
- The conversion of key names between C strings and parts (keySetName and its relatives) is not part of this model.
- SHA-256 is compared with its specification only; nothing is claimed about collisions.
