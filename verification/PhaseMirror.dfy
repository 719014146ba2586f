// The vault row mirrors the contract's phase machine after every log of every legal run, and the
// harvest's origin is inferred correctly except for exactly the ambiguous checkpoints.
module PhaseMirror {
  import opened Common
  import opened Lifecycle
  import opened Rows
  import opened Logs
  import opened Reducers
  import opened Chain

  // ---------------------------------------------------------------- the contract's own shape

  predicate AtRest(m: Machine) {
    && m.phase != Phase.Settling
    && (m.phase == Phase.Idle ==> (m.Stranded() <==> m.claim.Some?) && (m.Stranded() <==> m.option.Some?))
    && (m.Live() ==> !m.Stranded() && m.option.Some?)
  }

  // Between Clear's redeem and the close or the recovery that reports it.
  predicate MidRedeem(m: Machine) {
    (m.Live() && !m.Stranded() && m.listing == None) || (m.phase == Phase.Idle && m.Stranded())
  }

  predicate PendingOk(m: Machine) {
    match m.pending
    case Rest => AtRest(m)
    case Wrote(unsold) => AtRest(m) && m.phase == Phase.Listed && m.claim.Some? && unsold <= m.written
    case Filling(unsold) => AtRest(m) && m.phase == Phase.Listed && m.claim.Some? && 0 < unsold <= m.written
    case Redeeming(_, _) => MidRedeem(m) && m.claim.Some? && m.option.Some?
    case Redeemed(_, _, _) => MidRedeem(m) && m.claim == None && m.option == None
    case Stranding => m.Live() && m.Stranded() && m.claim.Some? && m.option.Some? && m.listing == None
    case Closing(usdg) => m.phase == Phase.Settling && (m.Stranded() ==> usdg == 0) && (m.Stranded() <==> m.claim.Some?) && (m.Stranded() <==> m.option.Some?)
    case Recovered(_) => m.phase == Phase.Idle && !m.Stranded() && 0 < m.resolved && m.claim == None && m.option == None
    case TookShare => AtRest(m) && m.phase == Phase.Idle && m.Stranded()
  }

  predicate MachineOk(m: Machine) {
    && m.resolved <= m.gen <= m.resolved + 1
    && m.remainingWad <= WAD && (!m.Stranded() ==> m.remainingWad == 0)
    && (m.cycle == 0 ==> m.phase == Phase.Idle && m.gen == 0)
    && (m.claim == None ==> m.written == 0 && m.collateral == 0)
    && (m.claim.Some? && !m.pending.Wrote? ==> 0 < m.written)
    && (m.pending.Redeemed? ==> 0 < m.pending.written)
    && (m.listing.Some? ==> m.phase == Phase.Listed)
    && PendingOk(m)
  }

  predicate Known(x: Txs, tx: Option<Hash>) { tx.Some? ==> tx.value in x.seen }

  predicate TxsOk(m: Machine, x: Txs) {
    && Known(x, x.tx) && Known(x, x.closeTx) && Known(x, x.retryTx)
    && (m.pending.Closing? ==> x.tx.Some? && x.closeTx == x.tx)
    && (m.pending.Recovered? ==> x.tx.Some? && x.retryTx == x.tx && x.live == m.pending.live)
  }

  // ---------------------------------------------------------------- the row against the books

  predicate RowMirrors(w: PhaseColumns, m: Machine, closeTx: Option<Hash>) {
    && w.phase == m.phase && w.cycleNumber == m.cycle
    && w.optionId == m.option && w.claimKey == m.claim
    && w.contractsWritten == m.written && w.lockedCollateral == m.collateral
    && w.listingHash == m.listing
    && w.stranded == m.Stranded() && w.strandGen == m.gen && w.lastResolvedGen == m.resolved
    && w.strandedRemainingWad == m.remainingWad
    && w.strandedCycleNumber == (if m.Stranded() then Some(m.cycle) else None)
    && w.rollCloseTx == closeTx
  }

  // The strand the index reads for a harvest's origin is the last one recovered.
  predicate LastStrandMirrors(strands: map<nat, Strand>, m: Machine, x: Txs) {
    var last := LastStrand(strands, m.resolved);
    && last.Some? == (m.resolved != 0)
    && (x.retryTx.Some? <==> last.Some?)
    && (last.Some? ==>
          && last.value.recoveredTx == x.retryTx
          && x.live == RecoverStrand(last.value.assetsIn, last.value.usdgIn, last.value.queueWad).liveUsdg)
  }

  // One strand row per generation ever stranded.
  ghost predicate StrandKeys(strands: map<nat, Strand>, m: Machine) {
    forall gen: nat :: gen in strands <==> 1 <= gen <= m.gen
  }

  ghost predicate PhaseLaw(t: Db, g: Books) {
    && MachineOk(g.machine) && TxsOk(g.machine, g.txs)
    && RowMirrors(t.week, g.machine, g.txs.closeTx)
    && LastStrandMirrors(t.strands, g.machine, g.txs)
    && StrandKeys(t.strands, g.machine)
  }

  // ---------------------------------------------------------------- what the inference returns

  // For every state a legal run reaches, the inferred origin of the next Harvest is the entry point
  // that emitted it exactly when that Harvest is not an ambiguous checkpoint; an ambiguous one reads as the retry's.
  lemma OriginExact(t: Db, g: Books, e: Emission)
    requires PhaseLaw(t, g) && Legal(g, e) && e.log.Harvest?
    ensures OriginIn(t, e.tx) == OriginBy(e.entry) <==> !Ambiguous(g, e)
    ensures Ambiguous(g, e) ==> OriginIn(t, e.tx) == HarvestOrigin.Retry
    ensures OriginIn(t, e.tx) == HarvestOrigin.RollClose <==> e.entry == FromRollClose
  {
  }

  // ---------------------------------------------------------------- preservation, log by log

  // The logs of a close, of a retry and of a settlement, against all the others.
  predicate AtClose(log: Log) {
    log.EpochStrandShare? || log.QueueSettled? || log.ClaimStranded? || log.RollClose? || log.ClaimRedeemed?
    || log.ClearClaimRedeemed? || log.StrandedClaimRecovered? || log.Harvest?
  }

  lemma MachineKeptAtClose(g: Books, e: Emission)
    requires MachineOk(g.machine) && Legal(g, e) && AtClose(e.log)
    ensures MachineOk(NextMachine(g.machine, e.log))
  {
  }

  lemma MachineKeptInWeek(g: Books, e: Emission)
    requires MachineOk(g.machine) && Legal(g, e) && !AtClose(e.log)
    ensures MachineOk(NextMachine(g.machine, e.log))
  {
  }

  lemma TxsKept(g: Books, e: Emission)
    requires MachineOk(g.machine) && TxsOk(g.machine, g.txs) && Legal(g, e)
    ensures TxsOk(NextMachine(g.machine, e.log), NextTxs(g.txs, e.tx, e.log))
  {
  }

  lemma RowKeptAtClose(t: Db, g: Books, e: Emission)
    requires PhaseLaw(t, g) && Legal(g, e) && AtClose(e.log)
    ensures RowMirrors(WeekAfter(t, e.tx, e.log), NextMachine(g.machine, e.log), NextTxs(g.txs, e.tx, e.log).closeTx)
  {
    if e.log.Harvest? {
      OriginExact(t, g, e);
    }
  }

  lemma RowKeptInWeek(t: Db, g: Books, e: Emission)
    requires MachineOk(g.machine) && RowMirrors(t.week, g.machine, g.txs.closeTx) && Legal(g, e) && !AtClose(e.log)
    ensures RowMirrors(WeekAfter(t, e.tx, e.log), NextMachine(g.machine, e.log), NextTxs(g.txs, e.tx, e.log).closeTx)
  {
  }

  lemma StrandsKept(t: Db, g: Books, e: Emission)
    requires PhaseLaw(t, g) && Legal(g, e)
    ensures LastStrandMirrors(StrandsAfter(t, e.tx, e.log), NextMachine(g.machine, e.log), NextTxs(g.txs, e.tx, e.log))
    ensures StrandKeys(StrandsAfter(t, e.tx, e.log), NextMachine(g.machine, e.log))
  {
    hide LegalLog, RowMirrors, LastStrandMirrors, MachineOk, TxsOk;
    StrandKeysKept(t, g, e);
    if e.log.StrandedClaimRecovered? {
      RecoveredIsLast(t, g, e);
    } else {
      LastStrandStays(t, g, e);
    }
  }

  lemma StrandKeysKept(t: Db, g: Books, e: Emission)
    requires PhaseLaw(t, g) && Legal(g, e)
    ensures StrandKeys(StrandsAfter(t, e.tx, e.log), NextMachine(g.machine, e.log))
  {
    hide LegalHarvest, LegalRollClose, LegalFill, LegalTransfer, LegalEntrySettled, RowMirrors, LastStrandMirrors;
  }

  lemma LastStrandStays(t: Db, g: Books, e: Emission)
    requires PhaseLaw(t, g) && Legal(g, e) && !e.log.StrandedClaimRecovered?
    ensures LastStrandMirrors(StrandsAfter(t, e.tx, e.log), NextMachine(g.machine, e.log), NextTxs(g.txs, e.tx, e.log))
  {
    hide LegalHarvest, LegalRollClose, LegalFill, LegalTransfer, LegalEntrySettled, RowMirrors, RecoverStrand;
  }

  // The index splits a recovered claim as the contract does.
  lemma RecoveryIsCut(assets: nat, usdg: nat, queueWad: nat)
    requires queueWad <= WAD
    ensures var r := RecoverStrand(assets, usdg, queueWad);
            && r.queueAssets == QueueCut(assets, queueWad) <= assets && r.queueUsdg == QueueCut(usdg, queueWad) <= usdg
            && r.liveUsdg == LiveCut(usdg, queueWad)
  {
    RecoveryParts(assets, usdg, queueWad);
  }

  // A recovery makes its own strand the last one.
  lemma RecoveredIsLast(t: Db, g: Books, e: Emission)
    requires PhaseLaw(t, g) && Legal(g, e) && e.log.StrandedClaimRecovered?
    ensures LastStrandMirrors(StrandsAfter(t, e.tx, e.log), NextMachine(g.machine, e.log), NextTxs(g.txs, e.tx, e.log))
  {
    hide RecoverStrand, LiveCut, QueueCut, RowMirrors;
    RecoveryIsCut(e.log.assets, e.log.usdg, e.log.queueWad);
  }

  lemma PhaseKept(t: Db, g: Books, e: Emission)
    requires PhaseLaw(t, g) && Legal(g, e)
    ensures PhaseLaw(Reduce(t, e.tx, e.log), Next(g, e))
  {
    if AtClose(e.log) {
      MachineKeptAtClose(g, e);
      RowKeptAtClose(t, g, e);
    } else {
      MachineKeptInWeek(g, e);
      RowKeptInWeek(t, g, e);
    }
    TxsKept(g, e);
    StrandsKept(t, g, e);
  }
}
