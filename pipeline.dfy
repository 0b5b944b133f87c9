/** The `Sealing` object: its redo guard is a field the methods update in
    place, and the effects on its collaborators (events sent to the state
    machine, calls into the sealing engine and the sector factory) are logs
    the methods append to. Each method runs atomically, which is what the
    pipeline's two locks provide. */
module SealingPipeline {
  import opened SealingTypes
  import opened SealingSpec

  class Sealing {
    /** The miner actor id behind `m.minerSector`. */
    const miner: nat
    /** `m.redoingSectors`. */
    var redoingSectors: set<Int64>
    /** Every `m.sectors.Send` call, in order. */
    var sent: seq<Sent>
    /** Every `m.sealer.AddPiece` call, in order. */
    var addPieceCalls: seq<AddPieceCall>
    /** Every `m.createSector` call, in order. */
    var createCalls: seq<CreateCall>
    /** The sector-info store read by `m.GetSectorInfo`, by sector number. */
    var sectorInfo: map<nat, SectorState>

    /** The observable state of this object. */
    function Model(): State
      reads this
    {
      State(redoingSectors, sent, addPieceCalls, createCalls, sectorInfo)
    }

    /** The object's invariant (see SealingSpec.Inv). */
    predicate Valid()
      reads this
    {
      Inv(Model())
    }

    constructor (miner: nat, sectors: map<nat, SectorState>)
      ensures Valid()
      ensures this.miner == miner && Model() == Initial(sectors)
    {
      this.miner := miner;
      redoingSectors := {};
      sent := [];
      addPieceCalls := [];
      createCalls := [];
      sectorInfo := sectors;
      InitialInv(sectors);
    }

    method PledgeSector(env: PledgeEnv) returns (ref: SectorRef, err: Outcome)
      requires Valid()
      modifies this
      ensures Valid()
      ensures PledgeOut(ref, err, Model()) == PledgeStep(old(Model()), miner, env)
    {
      PledgePreservesInv(Model(), miner, env);
      var cfg: Config;
      match env.config {
        case Err(e) =>
          return ZeroRef, Fail(GettingConfig(e));
        case Ok(c) =>
          cfg := c;
      }
      if cfg.maxSealingSectors > 0 {
        if env.curSealing >= cfg.maxSealingSectors {
          return ZeroRef, Fail(TooManySectorsSealing(env.curSealing, cfg.maxSealingSectors));
        }
      }
      var spt: ProofType;
      match env.sealProof {
        case Err(e) =>
          return ZeroRef, Fail(GettingSealProof(e));
        case Ok(p) =>
          spt := p;
      }
      createCalls := createCalls + [CreateCall(cfg, spt)];
      var sid: nat;
      match env.newSector {
        case Err(e) =>
          return ZeroRef, Fail(e);
        case Ok(n) =>
          sid := n;
      }
      ref := MinerSector(miner, spt, sid);
      err := Send(sid, StartCC(sid, spt), env.send);
    }

    /** `m.sectors.Send`: records the event and answers with the state
        machine's outcome. */
    method Send(key: nat, event: Event, outcome: Outcome) returns (err: Outcome)
      modifies this`sent
      ensures err == outcome
      ensures sent == old(sent) + [Sent(key, event)]
    {
      sent := sent + [Sent(key, event)];
      err := outcome;
    }

    method RecordSector(sid: Int64) returns (ok: bool)
      requires Valid()
      modifies this`redoingSectors
      ensures Valid()
      ensures ok <==> sid !in old(redoingSectors)
      ensures redoingSectors == old(redoingSectors) + {sid}
      ensures Step(ok, Model()) == RecordStep(old(Model()), sid)
    {
      assert RedoNumbers(redoingSectors) <= RedoNumbers(redoingSectors + {sid});
      if sid in redoingSectors {
        ok := false;
      } else {
        redoingSectors := redoingSectors + {sid};
        ok := true;
      }
    }

    /** `pledgeSector`: the placeholder AddPiece for an existing sector. */
    method RefillSector(n: nat, env: RedoEnv) returns (err: Outcome)
      modifies this`addPieceCalls
      ensures Step(err, Model()) == RefillStep(old(Model()), miner, n, env)
    {
      var spt: ProofType;
      match env.sealProof {
        case Err(e) =>
          return Fail(GettingSealProof(e));
        case Ok(p) =>
          spt := p;
      }
      var sector := MinerSector(miner, spt, n);
      var size: nat;
      match env.unpaddedSize(spt) {
        case Err(e) =>
          return Fail(e);
        case Ok(z) =>
          size := z;
      }
      addPieceCalls := addPieceCalls + [AddPieceCall(sector, [], size)];
      match env.addPiece {
        case Fail(e) =>
          return Fail(AddPieceFailed(e));
        case Pass =>
          return Pass;
      }
    }

    method Recovery(n: nat, send: Outcome) returns (err: Outcome)
      modifies this`sent
      ensures Step(err, Model()) == RecoveryStep(old(Model()), n, send)
    {
      err := Send(n, ForceState(Packing), send);
    }

    method RedoSector(sid: Int64, env: RedoEnv) returns (err: Outcome)
      requires Valid()
      modifies this
      ensures Valid()
      ensures Step(err, Model()) == RedoStep(old(Model()), miner, sid, env)
    {
      RedoPreservesInv(Model(), miner, sid, env);
      var n := SectorNumberOf(sid);
      if n !in sectorInfo {
        return Fail(SectorInfoUnavailable(n));
      }
      var state := sectorInfo[n];
      if state != Proving {
        return Fail(NotProving(state));
      }
      var ok := RecordSector(sid);
      if !ok {
        return Fail(SectorRecovering);
      }
      err := RefillSector(n, env);
      if err.Fail? {
        return err;
      }
      err := Recovery(n, env.send);
    }
  }
}
