# Sealing pipeline: pledge admission and sector redo

This project models the admission and redo logic of the `Sealing` object in
lotus-redoer's sealing pipeline (`storage/pipeline/garbage.go`) and proves
properties of it in Dafny.

- **`PledgeSector`** creates a committed-capacity sector. It reads the config
  and refuses the pledge when a positive `MaxSealingSectors` ceiling has been
  reached. Otherwise it resolves the seal proof type, asks `createSector` for a
  new sector number, and sends one `SectorStartCC` event to that sector's state
  machine. It returns the new sector reference together with the outcome of
  that send.
- **`recordSector`** is the redo guard. It tests and inserts an id in
  `redoingSectors` in one atomic step. Entries are never removed.
- **`RedoSector`** redoes a sector. It requires the stored state to be
  `Proving`, registers the id in the guard, re-runs a placeholder `AddPiece`
  through `pledgeSector`, and finally sends `SectorForceState{Packing}` through
  `recovery`. The first failure stops the later steps.

Layout:

- `types.dfy` (`SealingTypes`): sector ids and references, events, collaborator
  calls and errors. It also holds the written-out `int` to `uint64` conversion
  that `RedoSector` applies to its sector id.
- `spec.dfy` (`SealingSpec`): each operation as a pure function from the state
  before an atomic call and the collaborators' answers to the result and the
  state after it. It also holds the invariant a `Sealing` object keeps and the
  lemmas that each operation preserves it.
- `pipeline.dfy` (`SealingPipeline`): the class `Sealing`. Its fields are the
  redo guard, the log of sent events, the logs of `AddPiece` and `createSector`
  calls, and the sector-info store. Its methods work step by step with early
  returns, as the Go code does. `PledgeSector`, `RecordSector` and `RedoSector`
  are proved to produce exactly what `PledgeStep`, `RecordStep` and `RedoStep`
  produce, and to keep the invariant. The helpers `RefillSector`
  (`pledgeSector`) and `Recovery` are proved equal to `RefillStep` and
  `RecoveryStep`; they keep the invariant only as `RedoSector` calls them,
  after registration. `Send` is proved to append exactly its one event.
- `traces.dfy` (`SealingTraces`): runs of any number of atomic calls, mixed with
  arbitrary changes that the external state machine makes to the store. The
  cross-call properties are proved by induction over these runs.

Collaborators become values passed to each call: `PledgeEnv` for a pledge and
`RedoEnv` for a redo. `getConfig`, `stats.curSealing`, `currentSealProof`,
`createSector`, `sealer.AddPiece` and `sectors.Send` are each modelled by the
answer they give. `GetSectorInfo` reads the `sectorInfo` map. Every call to
`Send`, `AddPiece` and `createSector` is logged, including calls that fail.
"Sends no event" therefore means the event log is unchanged.

Points of the code the model keeps exactly:

- `RedoSector` requires the stored state to be `Proving` (garbage.go:54).
  Sector states are compared by name, as Go compares its string-typed states.
- Errors are propagated as written. A proof-type failure is wrapped ("getting
  seal proof type"), and so is an `AddPiece` failure ("add piece"). A
  `SectorSize` failure, a `createSector` failure, a failed `GetSectorInfo` and
  a failed `Send` in `recovery` are returned unchanged.
- No release step follows a redo. An id, once registered, stays in the guard.
  `SealingTraces.RegisteredRedoRefused` proves the consequence: every later
  redo of that sector is refused, even after the sector is `Proving` again.
- When `Send` fails at the end of `PledgeSector`, the sector reference is still
  returned beside the error. Go evaluates both return operands.

## Model

| member | source | states |
|---|---|---|
| SealingTypes.SectorNumberOf | storage/pipeline/garbage.go:49-50 | `abi.SectorNumber(sid)` maps a Go `int` to a `uint64` that is congruent to it modulo 2^64, and leaves non-negative ids unchanged |
| SealingSpec.Admits | storage/pipeline/garbage.go:26-30 | a pledge is refused exactly when the ceiling is positive and the sealing count has reached it; a zero ceiling never refuses |
| SealingSpec.PledgeStep | storage/pipeline/garbage.go:15-47 | a config failure, the ceiling, a proof-type failure and a `createSector` failure each return the zero ref and an error and send no event; `createSector` is called once with the config and proof type exactly when both were obtained; reaching the end returns `minerSector(spt, sid)` with the send outcome and appends exactly one `StartCC{sid, spt}` keyed by `sid`; the redo guard, the AddPiece log and the store are untouched |
| SealingSpec.RecordStep | storage/pipeline/garbage.go:70-80 | the call returns true exactly when the id was absent, and the guard afterwards is the old guard plus the id, so nothing else changes |
| SealingSpec.RecordTwiceRefused | storage/pipeline/garbage.go:70-80 | a second registration of the same id returns false and changes nothing |
| SealingSpec.PlaceholderCall | storage/pipeline/garbage.go:88-99 | the AddPiece call of `pledgeSector` names this miner's sector with the resolved proof type, has an empty piece list and has the unpadded sector size |
| SealingSpec.RefillStep | storage/pipeline/garbage.go:82-105 | a proof-type failure or a size failure returns an error without calling AddPiece; otherwise AddPiece is called exactly once with the placeholder arguments; success is returned exactly when AddPiece succeeds, and an AddPiece failure comes back wrapped; no event is sent |
| SealingSpec.RecoveryStep | storage/pipeline/garbage.go:107-112 | exactly one event is appended, `ForceState{Packing}` keyed by the sector, and the send outcome is returned |
| SealingSpec.RedoStep | storage/pipeline/garbage.go:49-68 | a missing sector or a non-`Proving` state returns an error and changes nothing; an id already in the guard returns "sector recovering" and changes nothing; the guard gains the id exactly when the state check passes; AddPiece is called at most once and only after registration; `ForceState{Packing}` is sent at most once and only after a successful AddPiece; success is returned exactly when all of these and the send succeed |
| SealingSpec.PledgePreservesInv | storage/pipeline/garbage.go:15-47 | a pledge keeps the invariant: AddPiece at most once per sector and only for registered sectors, `ForceState` at most once per sector and only after that sector's AddPiece |
| SealingSpec.RedoPreservesInv | storage/pipeline/garbage.go:49-68 | a redo keeps the same invariant, because it calls AddPiece only for a newly registered id, and the `uint64` conversion is injective |
| SealingPipeline.Sealing.PledgeSector | storage/pipeline/garbage.go:15-47 | the method's results and new state are exactly those of `PledgeStep`, and it keeps the invariant |
| SealingPipeline.Sealing.Send | storage/pipeline/garbage.go:43-46 | a send appends exactly its one event to the log and returns the state machine's outcome |
| SealingPipeline.Sealing.RecordSector | storage/pipeline/garbage.go:70-80 | returns true exactly when the id was absent; the guard afterwards is the old guard plus the id; the invariant is kept |
| SealingPipeline.Sealing.RefillSector | storage/pipeline/garbage.go:82-105 | result and new state as `RefillStep` |
| SealingPipeline.Sealing.Recovery | storage/pipeline/garbage.go:107-112 | result and new state as `RecoveryStep` |
| SealingPipeline.Sealing.RedoSector | storage/pipeline/garbage.go:49-68 | result and new state as `RedoStep`, with the invariant kept |
| SealingTraces.RunOnlyGrows | storage/pipeline/garbage.go:70-80 | over any run of calls the redo guard only grows, and the event and AddPiece logs only get longer (the old log is a prefix of the new one) |
| SealingTraces.RunPreservesInv | storage/pipeline/garbage.go:49-80 | any run of pledges, redos and store changes keeps the invariant |
| SealingTraces.FreshRunRedoesOnce | storage/pipeline/garbage.go:58-67 | from a fresh object, no sector ever gets two placeholder AddPiece calls or two `ForceState` events |
| SealingTraces.RegisteredRedoRefused | storage/pipeline/garbage.go:58-60 | once an id is in the guard, a redo of it after any further run of calls returns an error and changes nothing |
| SealingTraces.SecondRedoHasNoEffect | storage/pipeline/garbage.go:58-60 | of two redos of the same id in a row, the second changes nothing: no registration, no AddPiece, no event |
| SealingTraces.CeilingRefusesAll | storage/pipeline/garbage.go:18-30 | any number of pledges made while the count is at a positive ceiling are all refused with "too many sectors sealing", and the state is unchanged |
| SealingTraces.UnlimitedAlwaysAdmits | storage/pipeline/garbage.go:26-46 | with a zero ceiling, a pledge whose collaborators succeed always sends its `StartCC`, whatever the sealing count |

## Left out

- The mutexes `inputLk` and `redoLk` and the `startupWait` barrier. Each method
  is modelled as one atomic step. Runs in `SealingTraces` are sequences of these
  steps, so only interleavings at call boundaries are modelled.
- Logging (`log.Infof`, `log.Infow`) and the text of error messages. Errors keep
  their wrapping structure and the numbers in the "too many sectors sealing"
  message, not the text.
- `context.Context` and cancellation.
- The null reader and the real sealing behind `sealer.AddPiece`. The model
  records the call with its sector, piece list and size, and takes the call's
  outcome as given.
- The state machine behind `sectors.Send`. A send is recorded in the event log,
  and its outcome is given. The store changes the state machine makes appear
  only as arbitrary `StoreOp` steps in `SealingTraces`.
- `spt.SectorSize()` and `abi.PaddedPieceSize(...).Unpadded()` come from a
  library that is not part of this model. Together they are the function
  `RedoEnv.unpaddedSize` from proof type to size or error.
- `GetSectorInfo`: a sector absent from the store is its only failure mode in
  the model. Other store errors are not distinguished.
- `getConfig`, `stats.curSealing`, `currentSealProof`, `createSector` and
  `minerSector` are not part of this model beyond the answers they give.
  `minerSector` pairs this object's miner id with the number and the proof
  type. `curSealing` is read twice on the refusal path (the second read only
  feeds the message); the model reads it once.
