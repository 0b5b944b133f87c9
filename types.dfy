/** Values exchanged by the sealing pipeline's admission and redo logic:
    sector identifiers and references, the events sent to the per-sector
    state machine, the calls made to the sealing engine, and the errors. */
module SealingTypes {

  /** Go's `int` on the 64-bit platforms the pipeline runs on. `RedoSector`
      takes its sector id as an `int`. */
  newtype Int64 = x: int | -0x8000_0000_0000_0000 <= x < 0x8000_0000_0000_0000

  const TwoTo64: int := 0x1_0000_0000_0000_0000

  /** `abi.SectorNumber(sid)`: Go's conversion from `int` to `uint64`, which
      keeps the two's-complement bit pattern. */
  function SectorNumberOf(sid: Int64): (n: nat)
    ensures n < TwoTo64
    ensures (n - sid as int) % TwoTo64 == 0
    ensures sid >= 0 ==> n == sid as int
  {
    if sid >= 0 then sid as int else sid as int + TwoTo64
  }

  /** The conversion loses nothing: distinct ids name distinct sectors. */
  lemma SectorNumberInjective(a: Int64, b: Int64)
    ensures SectorNumberOf(a) == SectorNumberOf(b) ==> a == b
  {
  }

  /** A registered seal proof variant (`abi.RegisteredSealProof`). */
  datatype ProofType = ProofType(code: int)

  /** `abi.SectorID`: the miner's actor id and the sector number. */
  datatype SectorId = SectorId(miner: nat, number: nat)

  /** `storiface.SectorRef`: a sector id together with its proof type. */
  datatype SectorRef = SectorRef(id: SectorId, proofType: ProofType)

  /** Go's zero value `storiface.SectorRef{}`, returned beside every error. */
  const ZeroRef: SectorRef := SectorRef(SectorId(0, 0), ProofType(0))

  /** `m.minerSector(spt, sid)`: the reference to sector `sid` of this miner. */
  function MinerSector(miner: nat, spt: ProofType, sid: nat): SectorRef {
    SectorRef(SectorId(miner, sid), spt)
  }

  /** A sector's lifecycle state. In Go, `SectorState` is a string type, so a
      state is its name and two states are equal exactly when their names are. */
  datatype SectorState = SectorState(name: string)

  /** The two states this core names. */
  const Proving: SectorState := SectorState("Proving")
  const Packing: SectorState := SectorState("Packing")

  /** The sealing configuration; only the admission ceiling is read here.
      Zero means no ceiling. */
  datatype Config = Config(maxSealingSectors: nat)

  /** Errors returned by the pipeline. `Foreign` stands for an error value
      produced by a collaborator, and `SectorInfoUnavailable` for the error
      `GetSectorInfo` returns for an unknown sector; both are passed on
      unchanged. The other variants are the wrappers and messages the
      pipeline itself produces. */
  datatype Error =
    | Foreign(code: nat)
    | SectorInfoUnavailable(number: nat)
    | GettingConfig(cause: Error)
    | TooManySectorsSealing(curSealing: nat, max: nat)
    | GettingSealProof(cause: Error)
    | NotProving(state: SectorState)
    | SectorRecovering
    | AddPieceFailed(cause: Error)

  /** What a collaborator call that yields a value returns. */
  datatype Result<T> = Ok(value: T) | Err(error: Error)

  /** A Go `error` return: nil or an error. */
  datatype Outcome = Pass | Fail(error: Error)

  /** Events sent to the sector state machine. */
  datatype Event =
    | StartCC(id: nat, sectorType: ProofType)
    | ForceState(state: SectorState)

  /** One `m.sectors.Send(key, event)` call. */
  datatype Sent = Sent(key: nat, event: Event)

  /** One `m.sealer.AddPiece(sector, pieceSizes, size, data)` call; the data
      source is the null reader of length `size`, so it is not recorded. */
  datatype AddPieceCall = AddPieceCall(sector: SectorRef, pieceSizes: seq<nat>, size: nat)

  /** One `m.createSector(cfg, spt)` call. */
  datatype CreateCall = CreateCall(cfg: Config, spt: ProofType)
}
