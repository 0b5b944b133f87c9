/** The admission and redo logic of `Sealing` as pure state transitions.
    Each function takes the observable state before one (atomic) call and
    the answers of the collaborators, and returns what the call returns and
    the state after it. The class in SealingPipeline is proved to follow
    these functions exactly. */
module SealingSpec {
  import opened SealingTypes

  /** The observable state: the redo guard, the log of events sent to the
      state machine, the log of sealing-engine and sector-factory calls, and
      the sector-info store as `GetSectorInfo` reads it. */
  datatype State = State(
    redoing: set<Int64>,
    sent: seq<Sent>,
    addPieces: seq<AddPieceCall>,
    createCalls: seq<CreateCall>,
    sectors: map<nat, SectorState>)

  /** A state with nothing recorded yet. */
  function Initial(sectors: map<nat, SectorState>): State {
    State({}, [], [], [], sectors)
  }

  /** The result of a call and the state after it. */
  datatype Step<T> = Step(out: T, next: State)

  /** `PledgeSector`'s two results and the state after it. */
  datatype PledgeOut = PledgeOut(ref: SectorRef, err: Outcome, next: State)

  /** The answers of `PledgeSector`'s collaborators during one call:
      `getConfig`, `stats.curSealing`, `currentSealProof`, `createSector`
      and `sectors.Send`. */
  datatype PledgeEnv = PledgeEnv(
    config: Result<Config>,
    curSealing: nat,
    sealProof: Result<ProofType>,
    newSector: Result<nat>,
    send: Outcome)

  /** The answers of the redo path's collaborators during one call:
      `currentSealProof`, the unpadded sector size of a proof type
      (`spt.SectorSize()` followed by `Unpadded()`), `sealer.AddPiece` and
      `sectors.Send`. */
  datatype RedoEnv = RedoEnv(
    sealProof: Result<ProofType>,
    unpaddedSize: ProofType -> Result<nat>,
    addPiece: Outcome,
    send: Outcome)

  // ---------------------------------------------------------------------
  // Admission gate

  /** Whether a new pledge may proceed, given the configured ceiling and the
      number of sectors currently sealing. */
  function Admits(maxSealing: nat, curSealing: nat): (r: bool)
    ensures maxSealing == 0 ==> r
    ensures maxSealing > 0 ==> (r <==> curSealing < maxSealing)
    ensures r <==> maxSealing == 0 || curSealing < maxSealing
  {
    if maxSealing > 0 then !(curSealing >= maxSealing) else true
  }

  // ---------------------------------------------------------------------
  // PledgeSector

  /** `PledgeSector` gets past admission and proof-type resolution and so
      calls `createSector`. */
  predicate PledgeCreates(env: PledgeEnv) {
    env.config.Ok? && Admits(env.config.value.maxSealingSectors, env.curSealing) && env.sealProof.Ok?
  }

  /** `PledgeSector` reaches its final `Send`. */
  predicate PledgeReachesSend(env: PledgeEnv) {
    PledgeCreates(env) && env.newSector.Ok?
  }

  function PledgeStep(s: State, miner: nat, env: PledgeEnv): (r: PledgeOut)
    // pledging never touches the redo guard, the sealing engine or the store
    ensures r.next.redoing == s.redoing && r.next.addPieces == s.addPieces && r.next.sectors == s.sectors
    // each failure before the end returns the zero reference and an error
    ensures env.config.Err? ==> r == PledgeOut(ZeroRef, Fail(GettingConfig(env.config.error)), s)
    ensures env.config.Ok? && env.config.value.maxSealingSectors > 0
            && env.curSealing >= env.config.value.maxSealingSectors
            ==> r == PledgeOut(ZeroRef, Fail(TooManySectorsSealing(env.curSealing, env.config.value.maxSealingSectors)), s)
    ensures env.config.Ok? && Admits(env.config.value.maxSealingSectors, env.curSealing) && env.sealProof.Err?
            ==> r == PledgeOut(ZeroRef, Fail(GettingSealProof(env.sealProof.error)), s)
    ensures PledgeCreates(env) && env.newSector.Err? ==> r.ref == ZeroRef && r.err == Fail(env.newSector.error)
    // createSector is called once, with the config and the resolved proof type, exactly when both were obtained
    ensures r.next.createCalls
            == if PledgeCreates(env) then s.createCalls + [CreateCall(env.config.value, env.sealProof.value)]
               else s.createCalls
    // an event is sent only at the end, and then exactly one StartCC keyed by the new sector
    ensures !PledgeReachesSend(env) ==> r.next.sent == s.sent && r.err.Fail? && r.ref == ZeroRef
    ensures PledgeReachesSend(env) ==>
              var spt, sid := env.sealProof.value, env.newSector.value;
              r.ref == MinerSector(miner, spt, sid) && r.err == env.send
              && r.next.sent == s.sent + [Sent(sid, StartCC(sid, spt))]
  {
    match env.config
    case Err(e) => PledgeOut(ZeroRef, Fail(GettingConfig(e)), s)
    case Ok(cfg) =>
      if cfg.maxSealingSectors > 0 && env.curSealing >= cfg.maxSealingSectors then
        PledgeOut(ZeroRef, Fail(TooManySectorsSealing(env.curSealing, cfg.maxSealingSectors)), s)
      else
        match env.sealProof
        case Err(e) => PledgeOut(ZeroRef, Fail(GettingSealProof(e)), s)
        case Ok(spt) =>
          var created := s.(createCalls := s.createCalls + [CreateCall(cfg, spt)]);
          match env.newSector
          case Err(e) => PledgeOut(ZeroRef, Fail(e), created)
          case Ok(sid) =>
            PledgeOut(MinerSector(miner, spt, sid), env.send,
                      created.(sent := created.sent + [Sent(sid, StartCC(sid, spt))]))
  }

  // ---------------------------------------------------------------------
  // recordSector: the redo guard

  function RecordStep(s: State, sid: Int64): (r: Step<bool>)
    ensures r.out <==> sid !in s.redoing
    ensures r.next == s.(redoing := s.redoing + {sid})
  {
    if sid in s.redoing then Step(false, s)
    else Step(true, s.(redoing := s.redoing + {sid}))
  }

  /** Two registrations of the same id: the second is always refused. */
  lemma RecordTwiceRefused(s: State, sid: Int64)
    ensures !RecordStep(RecordStep(s, sid).next, sid).out
    ensures RecordStep(RecordStep(s, sid).next, sid).next == RecordStep(s, sid).next
  {
  }

  // ---------------------------------------------------------------------
  // pledgeSector: placeholder AddPiece for an existing sector

  /** `pledgeSector` obtains a proof type and a size and so calls AddPiece. */
  predicate RefillCallsAddPiece(env: RedoEnv) {
    env.sealProof.Ok? && env.unpaddedSize(env.sealProof.value).Ok?
  }

  /** The AddPiece call `pledgeSector` makes for sector `n`: no pieces, the
      whole unpadded size of the sector. */
  function PlaceholderCall(miner: nat, n: nat, env: RedoEnv): (c: AddPieceCall)
    requires RefillCallsAddPiece(env)
    ensures c.pieceSizes == [] && c.sector.id == SectorId(miner, n)
    ensures c.sector.proofType == env.sealProof.value
    ensures c.size == env.unpaddedSize(env.sealProof.value).value
  {
    var spt := env.sealProof.value;
    AddPieceCall(MinerSector(miner, spt, n), [], env.unpaddedSize(spt).value)
  }

  function RefillStep(s: State, miner: nat, n: nat, env: RedoEnv): (r: Step<Outcome>)
    ensures r.next.redoing == s.redoing && r.next.sent == s.sent
    ensures r.next.createCalls == s.createCalls && r.next.sectors == s.sectors
    ensures env.sealProof.Err? ==> r.out == Fail(GettingSealProof(env.sealProof.error))
    ensures env.sealProof.Ok? && env.unpaddedSize(env.sealProof.value).Err?
            ==> r.out == Fail(env.unpaddedSize(env.sealProof.value).error)
    ensures r.next.addPieces
            == if RefillCallsAddPiece(env) then s.addPieces + [PlaceholderCall(miner, n, env)] else s.addPieces
    ensures r.out == Pass <==> RefillCallsAddPiece(env) && env.addPiece == Pass
    ensures RefillCallsAddPiece(env) && env.addPiece.Fail? ==> r.out == Fail(AddPieceFailed(env.addPiece.error))
  {
    match env.sealProof
    case Err(e) => Step(Fail(GettingSealProof(e)), s)
    case Ok(spt) =>
      match env.unpaddedSize(spt)
      case Err(e) => Step(Fail(e), s)
      case Ok(size) =>
        var called := s.(addPieces := s.addPieces + [AddPieceCall(MinerSector(miner, spt, n), [], size)]);
        match env.addPiece
        case Fail(e) => Step(Fail(AddPieceFailed(e)), called)
        case Pass => Step(Pass, called)
  }

  // ---------------------------------------------------------------------
  // recovery

  function RecoveryStep(s: State, n: nat, send: Outcome): (r: Step<Outcome>)
    ensures r.out == send
    // exactly one event is appended: ForceState{Packing} keyed by the sector
    ensures |r.next.sent| == |s.sent| + 1 && r.next.sent[..|s.sent|] == s.sent
    ensures r.next.sent[|s.sent|] == Sent(n, ForceState(Packing))
    ensures r.next.redoing == s.redoing && r.next.addPieces == s.addPieces
    ensures r.next.createCalls == s.createCalls && r.next.sectors == s.sectors
  {
    Step(send, s.(sent := s.sent + [Sent(n, ForceState(Packing))]))
  }

  // ---------------------------------------------------------------------
  // RedoSector

  /** The stored state of sector `sid` is `Proving`. */
  predicate IsProving(s: State, sid: Int64) {
    SectorNumberOf(sid) in s.sectors && s.sectors[SectorNumberOf(sid)] == Proving
  }

  /** `RedoSector` registers `sid` in the guard. */
  predicate RedoRegisters(s: State, sid: Int64) {
    IsProving(s, sid) && sid !in s.redoing
  }

  /** `RedoSector` reaches `AddPiece`. */
  predicate RedoCallsAddPiece(s: State, sid: Int64, env: RedoEnv) {
    RedoRegisters(s, sid) && RefillCallsAddPiece(env)
  }

  /** `RedoSector` reaches `recovery` and sends `ForceState`. */
  predicate RedoForcesState(s: State, sid: Int64, env: RedoEnv) {
    RedoCallsAddPiece(s, sid, env) && env.addPiece == Pass
  }

  function RedoStep(s: State, miner: nat, sid: Int64, env: RedoEnv): (r: Step<Outcome>)
    ensures r.next.sectors == s.sectors && r.next.createCalls == s.createCalls
    // an unreadable or non-Proving sector: an error and no effect at all
    ensures SectorNumberOf(sid) !in s.sectors
            ==> r == Step(Fail(SectorInfoUnavailable(SectorNumberOf(sid))), s)
    ensures SectorNumberOf(sid) in s.sectors && s.sectors[SectorNumberOf(sid)] != Proving
            ==> r == Step(Fail(NotProving(s.sectors[SectorNumberOf(sid)])), s)
    // a redo already registered: "sector recovering" and no effect
    ensures IsProving(s, sid) && sid in s.redoing ==> r == Step(Fail(SectorRecovering), s)
    // the guard only grows, and gains sid exactly when the state check passes
    ensures r.next.redoing == if RedoRegisters(s, sid) then s.redoing + {sid} else s.redoing
    // AddPiece only after registration, once, with no pieces and the full size
    ensures r.next.addPieces
            == if RedoCallsAddPiece(s, sid, env)
               then s.addPieces + [PlaceholderCall(miner, SectorNumberOf(sid), env)]
               else s.addPieces
    // ForceState{Packing} only after a successful AddPiece, once, keyed by the sector
    ensures r.next.sent
            == if RedoForcesState(s, sid, env) then s.sent + [Sent(SectorNumberOf(sid), ForceState(Packing))]
               else s.sent
    ensures r.out == Pass <==> RedoForcesState(s, sid, env) && env.send == Pass
  {
    var n := SectorNumberOf(sid);
    if n !in s.sectors then Step(Fail(SectorInfoUnavailable(n)), s)
    else if s.sectors[n] != Proving then Step(Fail(NotProving(s.sectors[n])), s)
    else
      var recorded := RecordStep(s, sid);
      if !recorded.out then Step(Fail(SectorRecovering), recorded.next)
      else
        var refilled := RefillStep(recorded.next, miner, n, env);
        if refilled.out.Fail? then refilled
        else RecoveryStep(refilled.next, n, env.send)
  }

  // ---------------------------------------------------------------------
  // The invariant that a Sealing object keeps

  /** The sector numbers of the ids in the redo guard. */
  function RedoNumbers(redoing: set<Int64>): (ns: set<nat>)
    ensures forall sid :: sid in redoing ==> SectorNumberOf(sid) in ns
  {
    set sid | sid in redoing :: SectorNumberOf(sid)
  }

  /** The sectors AddPiece was called for. */
  function AddPieceNumbers(calls: seq<AddPieceCall>): set<nat> {
    set i | 0 <= i < |calls| :: calls[i].sector.id.number
  }

  /** The sectors a ForceState was sent for. */
  function ForceStateKeys(sent: seq<Sent>): set<nat> {
    set i | 0 <= i < |sent| && sent[i].event.ForceState? :: sent[i].key
  }

  /** No two AddPiece calls for the same sector. */
  predicate AddPieceOnce(calls: seq<AddPieceCall>) {
    forall i, j :: 0 <= i < j < |calls| ==> calls[i].sector.id.number != calls[j].sector.id.number
  }

  /** No two ForceState events for the same sector. */
  predicate ForceStateOnce(sent: seq<Sent>) {
    forall i, j :: 0 <= i < j < |sent| && sent[i].event.ForceState? && sent[j].event.ForceState?
                   ==> sent[i].key != sent[j].key
  }

  /** Because the redo guard is never emptied, a Sealing object calls
      AddPiece at most once per sector, only for registered sectors, and
      forces a sector back to Packing at most once, only after its AddPiece. */
  predicate Inv(s: State) {
    && AddPieceOnce(s.addPieces)
    && ForceStateOnce(s.sent)
    && AddPieceNumbers(s.addPieces) <= RedoNumbers(s.redoing)
    && ForceStateKeys(s.sent) <= AddPieceNumbers(s.addPieces)
  }

  lemma InitialInv(sectors: map<nat, SectorState>)
    ensures Inv(Initial(sectors))
  {
  }

  /** A sector number outside the guard's numbers has no AddPiece and no
      ForceState yet. */
  lemma UnregisteredIsUntouched(s: State, sid: Int64)
    requires Inv(s)
    requires sid !in s.redoing
    ensures SectorNumberOf(sid) !in AddPieceNumbers(s.addPieces)
    ensures SectorNumberOf(sid) !in ForceStateKeys(s.sent)
  {
  }

  lemma AppendAddPiece(calls: seq<AddPieceCall>, c: AddPieceCall)
    requires AddPieceOnce(calls)
    requires c.sector.id.number !in AddPieceNumbers(calls)
    ensures AddPieceOnce(calls + [c])
    ensures AddPieceNumbers(calls + [c]) == AddPieceNumbers(calls) + {c.sector.id.number}
  {
    var ext := calls + [c];
    forall i, j | 0 <= i < j < |ext| ensures ext[i].sector.id.number != ext[j].sector.id.number {
      if j == |calls| {
        assert ext[i].sector.id.number in AddPieceNumbers(calls);
      }
    }
    assert forall i :: 0 <= i < |calls| ==> ext[i] == calls[i];
    assert ext[|calls|] == c;
  }

  lemma AppendSent(sent: seq<Sent>, m: Sent)
    requires ForceStateOnce(sent)
    requires m.event.ForceState? ==> m.key !in ForceStateKeys(sent)
    ensures ForceStateOnce(sent + [m])
    ensures ForceStateKeys(sent + [m]) == ForceStateKeys(sent) + (if m.event.ForceState? then {m.key} else {})
  {
    var ext := sent + [m];
    forall i, j | 0 <= i < j < |ext| && ext[i].event.ForceState? && ext[j].event.ForceState?
      ensures ext[i].key != ext[j].key
    {
      if j == |sent| {
        assert ext[i].key in ForceStateKeys(sent);
      }
    }
    assert forall i :: 0 <= i < |sent| ==> ext[i] == sent[i];
    assert ext[|sent|] == m;
  }

  lemma PledgePreservesInv(s: State, miner: nat, env: PledgeEnv)
    requires Inv(s)
    ensures Inv(PledgeStep(s, miner, env).next)
  {
  }

  lemma RedoPreservesInv(s: State, miner: nat, sid: Int64, env: RedoEnv)
    requires Inv(s)
    ensures Inv(RedoStep(s, miner, sid, env).next)
  {
    var r := RedoStep(s, miner, sid, env);
    if RedoCallsAddPiece(s, sid, env) {
      var n := SectorNumberOf(sid);
      UnregisteredIsUntouched(s, sid);
      AppendAddPiece(s.addPieces, PlaceholderCall(miner, n, env));
      assert RedoNumbers(r.next.redoing) == RedoNumbers(s.redoing) + {n};
      if RedoForcesState(s, sid, env) {
        AppendSent(s.sent, Sent(n, ForceState(Packing)));
      }
    } else if RedoRegisters(s, sid) {
      assert RedoNumbers(s.redoing) <= RedoNumbers(r.next.redoing);
    }
  }
}
