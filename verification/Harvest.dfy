// indexer/lib/harvest.ts: one Harvest event split into premium and strike proceeds, and the
// accumulation of harvests onto a cycle row.
module Harvest {
  import opened Common

  const SHARE_SCALE: nat := 1_000_000_000_000_000_000

  datatype HarvestEvent = HarvestEvent(grossUsdg: nat, feeUsdg: nat, netUsdg: nat, usdgFromAssignment: int, supply: nat)

  datatype HarvestSplit = HarvestSplit(
    strikeProceeds: int,
    premiumGross: int,
    premiumNet: int,
    credited: nat,
    premiumNetPerShare: int,
    creditedPerShare: int)

  datatype HarvestTotals = HarvestTotals(
    harvestGross: int,
    harvestPremiumGross: int,
    strikeProceeds: int,
    fee: int,
    premiumNet: int,
    creditedUsdg: int,
    premiumNetPerShare: int,
    usdgPerShare: int)

  const ZERO_TOTALS := HarvestTotals(0, 0, 0, 0, 0, 0, 0, 0)

  function PerShare(amount: int, supply: nat): int {
    if supply == 0 then 0 else amount * SHARE_SCALE / supply
  }

  function SplitHarvest(h: HarvestEvent): HarvestSplit {
    var strikeProceeds := if h.usdgFromAssignment < h.grossUsdg then h.usdgFromAssignment else h.grossUsdg;
    var premiumGross := h.grossUsdg - strikeProceeds;
    var premiumNet := if premiumGross > h.feeUsdg then premiumGross - h.feeUsdg else 0;
    HarvestSplit(strikeProceeds, premiumGross, premiumNet, h.netUsdg, PerShare(premiumNet, h.supply), PerShare(h.netUsdg, h.supply))
  }

  function AddHarvest(t: HarvestTotals, h: HarvestEvent): HarvestTotals {
    var s := SplitHarvest(h);
    HarvestTotals(
      t.harvestGross + h.grossUsdg,
      t.harvestPremiumGross + s.premiumGross,
      t.strikeProceeds + s.strikeProceeds,
      t.fee + h.feeUsdg,
      t.premiumNet + s.premiumNet,
      t.creditedUsdg + s.credited,
      t.premiumNetPerShare + s.premiumNetPerShare,
      t.usdgPerShare + s.creditedPerShare)
  }
}
