/** Runs of a Sealing object: any sequence of atomic `PledgeSector` and
    `RedoSector` calls, interleaved with changes the external state machine
    makes to the sector-info store. Properties that hold across calls are
    stated here. */
module SealingTraces {
  import opened SealingTypes
  import opened SealingSpec

  datatype Op =
    | PledgeOp(pledge: PledgeEnv)
    | RedoOp(sid: Int64, redo: RedoEnv)
      /** The state machine moves sectors between states (for instance a
          redone sector reaching Proving again). */
    | StoreOp(sectors: map<nat, SectorState>)

  /** What each call returned, and the state at the end. */
  datatype Trace = Trace(outcomes: seq<Outcome>, final: State)

  function Apply(s: State, miner: nat, op: Op): (r: Step<Outcome>)
    ensures op.StoreOp? ==> r.next == s.(sectors := op.sectors)
  {
    match op
    case PledgeOp(env) =>
      var p := PledgeStep(s, miner, env);
      Step(p.err, p.next)
    case RedoOp(sid, env) => RedoStep(s, miner, sid, env)
    case StoreOp(sectors) => Step(Pass, s.(sectors := sectors))
  }

  function Run(s: State, miner: nat, ops: seq<Op>): (t: Trace)
    ensures |t.outcomes| == |ops|
    decreases |ops|
  {
    if ops == [] then Trace([], s)
    else
      var first := Apply(s, miner, ops[0]);
      var rest := Run(first.next, miner, ops[1..]);
      Trace([first.out] + rest.outcomes, rest.final)
  }

  /** No call removes anything: the redo guard only grows, and the event
      and AddPiece logs only get longer. */
  lemma {:induction false} RunOnlyGrows(s: State, miner: nat, ops: seq<Op>)
    ensures s.redoing <= Run(s, miner, ops).final.redoing
    ensures s.sent <= Run(s, miner, ops).final.sent
    ensures s.addPieces <= Run(s, miner, ops).final.addPieces
    decreases |ops|
  {
    if ops != [] {
      RunOnlyGrows(Apply(s, miner, ops[0]).next, miner, ops[1..]);
    }
  }

  /** Every run keeps the invariant: whatever the interleaving and whatever
      the state machine does to the store, AddPiece is called at most once
      per sector and ForceState is sent at most once per sector. */
  lemma {:induction false} RunPreservesInv(s: State, miner: nat, ops: seq<Op>)
    requires Inv(s)
    ensures Inv(Run(s, miner, ops).final)
    decreases |ops|
  {
    if ops != [] {
      match ops[0] {
        case PledgeOp(env) => PledgePreservesInv(s, miner, env);
        case RedoOp(sid, env) => RedoPreservesInv(s, miner, sid, env);
        case StoreOp(_) =>
      }
      RunPreservesInv(Apply(s, miner, ops[0]).next, miner, ops[1..]);
    }
  }

  /** From a fresh object, no sector ever gets two placeholder AddPiece calls
      or two ForceState events. */
  lemma FreshRunRedoesOnce(miner: nat, sectors: map<nat, SectorState>, ops: seq<Op>)
    ensures AddPieceOnce(Run(Initial(sectors), miner, ops).final.addPieces)
    ensures ForceStateOnce(Run(Initial(sectors), miner, ops).final.sent)
  {
    InitialInv(sectors);
    RunPreservesInv(Initial(sectors), miner, ops);
  }

  /** Once an id is registered, every later redo of it is refused, however
      much has happened in between and even if the sector is Proving again:
      it returns an error and changes nothing. */
  lemma RegisteredRedoRefused(s: State, miner: nat, ops: seq<Op>, sid: Int64, env: RedoEnv)
    requires sid in s.redoing
    ensures RedoStep(Run(s, miner, ops).final, miner, sid, env).out.Fail?
    ensures RedoStep(Run(s, miner, ops).final, miner, sid, env).next == Run(s, miner, ops).final
  {
    RunOnlyGrows(s, miner, ops);
  }

  /** Two redo calls for the same sector, one after the other: the second
      calls neither AddPiece nor Send. */
  lemma SecondRedoHasNoEffect(s: State, miner: nat, sid: Int64, first: RedoEnv, second: RedoEnv)
    ensures var mid := RedoStep(s, miner, sid, first).next;
            RedoStep(mid, miner, sid, second).next == mid
  {
  }

  /** A pledge call at or above a positive ceiling. */
  predicate AtCeiling(op: Op) {
    op.PledgeOp? && op.pledge.config.Ok?
    && op.pledge.config.value.maxSealingSectors > 0
    && op.pledge.curSealing >= op.pledge.config.value.maxSealingSectors
  }

  /** Any number of pledges issued while the sealing count is at the ceiling
      are all refused with "too many sectors sealing", and none creates a
      sector or sends an event. */
  lemma {:induction false} CeilingRefusesAll(s: State, miner: nat, ops: seq<Op>)
    requires forall i :: 0 <= i < |ops| ==> AtCeiling(ops[i])
    ensures Run(s, miner, ops).final == s
    ensures forall i :: 0 <= i < |ops| ==>
              Run(s, miner, ops).outcomes[i].Fail? && Run(s, miner, ops).outcomes[i].error.TooManySectorsSealing?
    decreases |ops|
  {
    if ops != [] {
      assert AtCeiling(ops[0]);
      CeilingRefusesAll(s, miner, ops[1..]);
      var t := Run(s, miner, ops);
      forall i | 0 <= i < |ops|
        ensures t.outcomes[i].Fail? && t.outcomes[i].error.TooManySectorsSealing?
      {
        if i > 0 {
          assert t.outcomes[i] == Run(s, miner, ops[1..]).outcomes[i - 1];
          assert AtCeiling(ops[1..][i - 1]);
        }
      }
    }
  }

  /** With no ceiling, a pledge whose collaborators answer is never refused
      and always sends its StartCC, whatever the sealing count. */
  lemma UnlimitedAlwaysAdmits(s: State, miner: nat, env: PledgeEnv)
    requires env.config.Ok? && env.config.value.maxSealingSectors == 0
    requires env.sealProof.Ok? && env.newSector.Ok?
    ensures var r := PledgeStep(s, miner, env);
            |r.next.sent| == |s.sent| + 1
            && r.next.sent[|s.sent|] == Sent(env.newSector.value, StartCC(env.newSector.value, env.sealProof.value))
  {
  }
}
