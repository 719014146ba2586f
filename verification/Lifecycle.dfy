// The pure decisions of indexer/lib/lifecycle.ts: where an event came from and what it means.
module Lifecycle {
  import opened Common

  datatype Phase = Idle | Listed | Exercisable | Settling

  datatype HarvestOrigin = RollClose | Checkpoint | Retry

  datatype CycleStatus = Listed | Filled | Stranded | Assigned | Closed | Unfilled

  datatype ListingStatus = Approved | PartiallyFilled | Filled | Cancelled

  function OriginOf(rollCloseTx: Option<Hash>, phase: Phase, lastRecoveredTx: Option<Hash>, tx: Hash): HarvestOrigin {
    if SameTx(rollCloseTx, tx) && phase == Settling then RollClose
    else if SameTx(lastRecoveredTx, tx) then Retry
    else Checkpoint
  }

  function CloseStatus(stranded: bool, written: nat, assignedCount: nat): CycleStatus {
    if stranded then Stranded
    else if assignedCount > 0 then Assigned
    else if written > 0 then Closed
    else Unfilled
  }

  function RecoveredStatus(assignedCount: nat): CycleStatus {
    if assignedCount > 0 then Assigned else Closed
  }

  // Never for cycle 0 (hasRow is false); always for the week's own money; a checkpoint only while the week is open.
  predicate HarvestTouchesCycle(hasRow: bool, harvested: bool, origin: HarvestOrigin) {
    hasRow && (origin == RollClose || origin == Retry || !harvested)
  }

  function OptionIdAfterClose(stranded: bool, optionId: Option<nat>): Option<nat> {
    if stranded then optionId else None
  }

  function SettlementCycle(rollCloseTx: Option<Hash>, cycleNumber: nat, tx: Hash): Option<nat> {
    if SameTx(rollCloseTx, tx) then Some(cycleNumber) else None
  }

  function EntryStrandShare(sharesSettled: nat, sharesClaimed: nat, strandWad: nat, strandWadClaimed: nat, shares: nat): nat {
    var w := Sub(strandWad, strandWadClaimed);
    if w == 0 then 0
    else
      var remaining := Sub(sharesSettled, sharesClaimed);
      if remaining == 0 || shares >= remaining then w else w * shares / remaining
  }

  datatype StrandRecovery = StrandRecovery(queueAssets: nat, queueUsdg: nat, liveAssets: int, liveUsdg: int)

  function RecoverStrand(assetsIn: nat, usdgIn: nat, queueWad: nat): StrandRecovery {
    var queueAssets := assetsIn * queueWad / WAD;
    var queueUsdg := usdgIn * queueWad / WAD;
    StrandRecovery(queueAssets, queueUsdg, assetsIn - queueAssets, usdgIn - queueUsdg)
  }

  // On each leg the queue's part is the floor of its 1e18ths of what came in, and live shares have the rest;
  // none is negative as long as the queue owns at most the whole claim.
  lemma RecoveryParts(assetsIn: nat, usdgIn: nat, queueWad: nat)
    requires queueWad <= WAD
    ensures var r := RecoverStrand(assetsIn, usdgIn, queueWad);
            && 0 <= r.queueAssets <= assetsIn && 0 <= r.liveAssets
            && 0 <= r.queueUsdg <= usdgIn && 0 <= r.liveUsdg
            && r.queueAssets + r.liveAssets == assetsIn && r.queueUsdg + r.liveUsdg == usdgIn
            && r.queueAssets * 1_000_000_000_000_000_000 <= assetsIn * queueWad < (r.queueAssets + 1) * 1_000_000_000_000_000_000
            && r.queueUsdg * 1_000_000_000_000_000_000 <= usdgIn * queueWad < (r.queueUsdg + 1) * 1_000_000_000_000_000_000
  {
    FloorPart(assetsIn, queueWad);
    FloorPart(usdgIn, queueWad);
    DivBelow(assetsIn * queueWad, WAD);
    DivBelow(usdgIn * queueWad, WAD);
  }

  lemma FloorPart(x: nat, wad: nat)
    requires wad <= WAD
    ensures x * wad / WAD <= x
  {
    assert x * wad <= x * WAD;
    assert x * wad / WAD <= x * WAD / WAD == x;
  }

  function EndedListingStatus(contractsFilled: nat): ListingStatus {
    if contractsFilled > 0 then PartiallyFilled else Cancelled
  }

  function Capacity(maxUtilizationBps: nat, maxContractsCap: nat, totalAssets: nat, contractsWritten: nat): nat {
    var byUtilization := totalAssets * maxUtilizationBps / BPS / LOT;
    var max := if byUtilization < maxContractsCap then byUtilization else maxContractsCap;
    if max > contractsWritten then max - contractsWritten else 0
  }
}
