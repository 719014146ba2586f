// A week's money swept in several harvests: what the protocol fee and the per-share figures lose to
// flooring, sweep by sweep, against one sweep of the whole week. The fee rule is harvestFee of
// keeper/src/dryrun-common.ts; the accumulation is addHarvest of indexer/lib/harvest.ts.
module Sweeps {
  import opened Common
  import opened History
  import opened Harvest

  // The protocol fee on one Harvest: charged on what is not fee-free, floored.
  function HarvestFee(gross: nat, feeFree: nat, protocolFeeBps: nat): nat {
    Sub(gross, feeFree) * protocolFeeBps / BPS
  }

  // A sweep as the vault emits it at one fee rate.
  predicate Charged(h: HarvestEvent, bps: nat) {
    && 0 <= h.usdgFromAssignment <= h.grossUsdg
    && h.feeUsdg == HarvestFee(h.grossUsdg, h.usdgFromAssignment, bps)
    && h.netUsdg == h.grossUsdg - h.feeUsdg
  }

  predicate AllCharged(sweeps: seq<HarvestEvent>, bps: nat) {
    forall i :: 0 <= i < |sweeps| ==> Charged(sweeps[i], bps)
  }

  // The cycle row's totals after its sweeps.
  function SweptBy(sweeps: seq<HarvestEvent>): HarvestTotals {
    if sweeps == [] then ZERO_TOTALS
    else AddHarvest(SweptBy(sweeps[..|sweeps| - 1]), sweeps[|sweeps| - 1])
  }

  function GrossOf(sweeps: seq<HarvestEvent>): nat {
    if sweeps == [] then 0 else GrossOf(sweeps[..|sweeps| - 1]) + sweeps[|sweeps| - 1].grossUsdg
  }

  function StrikeOf(sweeps: seq<HarvestEvent>): int {
    if sweeps == [] then 0 else StrikeOf(sweeps[..|sweeps| - 1]) + sweeps[|sweeps| - 1].usdgFromAssignment
  }

  // The strike proceeds credited per share, sweep by sweep.
  function StrikePerShare(sweeps: seq<HarvestEvent>): int {
    if sweeps == [] then 0
    else
      var last := sweeps[|sweeps| - 1];
      StrikePerShare(sweeps[..|sweeps| - 1]) + PerShare(last.usdgFromAssignment, last.supply)
  }

  // ---------------------------------------------------------------- the parts of a sweep, in base units

  function GrossPart(): HarvestEvent -> int { (h: HarvestEvent) => h.grossUsdg }

  function FeePart(): HarvestEvent -> int { (h: HarvestEvent) => h.feeUsdg }

  function NetPart(): HarvestEvent -> int { (h: HarvestEvent) => h.netUsdg }

  // Never more strike proceeds than were swept.
  function StrikePart(): HarvestEvent -> int {
    (h: HarvestEvent) => if h.usdgFromAssignment <= h.grossUsdg then h.usdgFromAssignment else h.grossUsdg
  }

  // Premium after the fee, never below nothing.
  function PremiumPart(): HarvestEvent -> int {
    (h: HarvestEvent) =>
      if h.usdgFromAssignment + h.feeUsdg < h.grossUsdg then h.grossUsdg - h.usdgFromAssignment - h.feeUsdg else 0
  }

  // A figure per whole share of 1e18 units, floored, and nothing while there are no shares.
  function PremiumPerShare(): HarvestEvent -> int {
    (h: HarvestEvent) => if h.supply == 0 then 0 else PremiumPart()(h) * 1_000_000_000_000_000_000 / h.supply
  }

  function CreditPerShare(): HarvestEvent -> int {
    (h: HarvestEvent) => if h.supply == 0 then 0 else h.netUsdg * 1_000_000_000_000_000_000 / h.supply
  }

  // Whatever its sweeps, each of a week's eight money columns is the total of their own parts.
  lemma {:induction false} ColumnsOfSweeps(sweeps: seq<HarvestEvent>)
    ensures var w := SweptBy(sweeps);
            && w.harvestGross == Added(sweeps, GrossPart()) && w.fee == Added(sweeps, FeePart())
            && w.strikeProceeds == Added(sweeps, StrikePart())
            && w.harvestPremiumGross == Added(sweeps, GrossPart()) - Added(sweeps, StrikePart())
            && w.premiumNet == Added(sweeps, PremiumPart()) && w.creditedUsdg == Added(sweeps, NetPart())
            && w.premiumNetPerShare == Added(sweeps, PremiumPerShare()) && w.usdgPerShare == Added(sweeps, CreditPerShare())
  {
    if sweeps != [] {
      hide SplitHarvest, PremiumPerShare, CreditPerShare, PremiumPart, StrikePart;
      ColumnsOfSweeps(sweeps[..|sweeps| - 1]);
      PartsOfSweep(sweeps[|sweeps| - 1]);
    }
  }

  lemma PartsOfSweep(h: HarvestEvent)
    ensures var s := SplitHarvest(h);
            && s.strikeProceeds == StrikePart()(h) && s.premiumGross == h.grossUsdg - StrikePart()(h)
            && s.premiumNet == PremiumPart()(h) && s.credited == h.netUsdg
            && s.premiumNetPerShare == PremiumPerShare()(h) && s.creditedPerShare == CreditPerShare()(h)
  {
  }

  // ---------------------------------------------------------------- one sweep

  lemma FeeFloors(premium: nat, bps: nat)
    ensures var fee := premium * bps / BPS; fee * BPS <= premium * bps < fee * BPS + BPS
  {
    DivBelow(premium * bps, BPS);
  }

  // Nothing on fee-free USDG, and otherwise the floor of so many ten-thousandths of the rest.
  lemma HarvestFeeFloors(gross: nat, feeFree: nat, bps: nat)
    ensures var fee := HarvestFee(gross, feeFree, bps);
            if gross <= feeFree then fee == 0 else fee * 10_000 <= (gross - feeFree) * bps < (fee + 1) * 10_000
  {
    FeeFloors(Sub(gross, feeFree), bps);
  }

  lemma FeeWithinPremium(gross: nat, feeFree: nat, bps: nat)
    requires feeFree <= gross && bps <= BPS
    ensures HarvestFee(gross, feeFree, bps) <= gross - feeFree
  {
    var premium := gross - feeFree;
    FeeFloors(premium, bps);
    MulMonotone(premium, bps, BPS);
  }

  // Nothing is clamped in a sweep the vault charged: its parts add up.
  lemma ChargedParts(h: HarvestEvent, bps: nat)
    requires bps <= BPS && Charged(h, bps)
    ensures var s := SplitHarvest(h);
            && s.strikeProceeds == h.usdgFromAssignment
            && s.premiumGross == h.grossUsdg - h.usdgFromAssignment
            && s.premiumNet == s.premiumGross - h.feeUsdg >= 0
            && h.netUsdg == s.premiumNet + s.strikeProceeds
  {
    FeeWithinPremium(h.grossUsdg, h.usdgFromAssignment, bps);
  }

  lemma PerShareFloors(a: nat, supply: nat)
    requires 0 < supply
    ensures 0 <= PerShare(a, supply)
    ensures PerShare(a, supply) * supply <= a * SHARE_SCALE < (PerShare(a, supply) + 1) * supply
  {
    var scaled := a * SHARE_SCALE;
    DivBelow(scaled, supply);
    assert PerShare(a, supply) == scaled / supply;
  }

  // Flooring two amounts apart loses at most one unit against flooring their sum.
  lemma PerShareOfSum(a: nat, b: nat, supply: nat)
    ensures 0 <= PerShare(a + b, supply) - PerShare(a, supply) - PerShare(b, supply) <= 1
  {
    if supply != 0 {
      hide PerShare;
      PerShareFloors(a, supply);
      PerShareFloors(b, supply);
      PerShareFloors(a + b, supply);
      Distribute(a, b, SHARE_SCALE);
      FloorsAdd(PerShare(a, supply), PerShare(b, supply), PerShare(a + b, supply), supply, a * SHARE_SCALE, b * SHARE_SCALE);
    }
  }

  lemma FloorsAdd(p: nat, q: nat, r: nat, d: nat, x: nat, y: nat)
    requires 0 < d && p * d <= x < (p + 1) * d && q * d <= y < (q + 1) * d && r * d <= x + y < (r + 1) * d
    ensures p + q <= r <= p + q + 1
  {
    Distribute(p, q, d);
    Distribute(p + 1, q + 1, d);
    NoMoreThan(p + q, r, d, x + y);
    NoMoreThan(r, p + q + 1, d, x + y);
  }

  // A quotient that fits below x is not above one that x does not reach.
  lemma NoMoreThan(a: nat, b: nat, d: nat, x: nat)
    requires 0 < d && a * d <= x < (b + 1) * d
    ensures a <= b
  {
    if a > b {
      MulMonotone(d, b + 1, a);
      assert false;
    }
  }

  // ---------------------------------------------------------------- a week of sweeps

  // Every column of the row is what the sweeps carried, and they add up.
  lemma {:induction false} WeekAddsUp(sweeps: seq<HarvestEvent>, bps: nat)
    requires bps <= BPS && AllCharged(sweeps, bps)
    ensures var t := SweptBy(sweeps);
            && t.harvestGross == GrossOf(sweeps) && t.strikeProceeds == StrikeOf(sweeps) >= 0
            && t.harvestPremiumGross == GrossOf(sweeps) - StrikeOf(sweeps) >= 0
            && t.premiumNet == t.harvestPremiumGross - t.fee
            && t.creditedUsdg == t.premiumNet + t.strikeProceeds
            && t.harvestGross == t.premiumNet + t.fee + t.strikeProceeds
  {
    if sweeps != [] {
      var n := |sweeps| - 1;
      WeekAddsUp(sweeps[..n], bps);
      ChargedParts(sweeps[n], bps);
    }
  }

  lemma {:induction false} FeesAgainstPremium(sweeps: seq<HarvestEvent>, bps: nat)
    requires bps <= BPS && AllCharged(sweeps, bps)
    ensures var t := SweptBy(sweeps);
            t.fee * BPS <= t.harvestPremiumGross * bps <= t.fee * BPS + |sweeps| * (BPS - 1)
  {
    if sweeps != [] {
      var n := |sweeps| - 1;
      FeesAgainstPremium(sweeps[..n], bps);
      var h := sweeps[n];
      var before := SweptBy(sweeps[..n]);
      ChargedParts(h, bps);
      var premium := h.grossUsdg - h.usdgFromAssignment;
      FeeFloors(premium, bps);
      Distribute(before.harvestPremiumGross, premium, bps);
    }
  }

  // Sweeping a week in n harvests charges at most what one sweep of the whole week would, and at most
  // n - 1 base units less.
  lemma SplittingLosesUnderOneUnitEach(sweeps: seq<HarvestEvent>, bps: nat)
    requires bps <= BPS && AllCharged(sweeps, bps) && sweeps != []
    ensures 0 <= StrikeOf(sweeps)
    ensures var once := HarvestFee(GrossOf(sweeps), StrikeOf(sweeps), bps);
            once - (|sweeps| - 1) <= SweptBy(sweeps).fee <= once
  {
    WeekAddsUp(sweeps, bps);
    FeesAgainstPremium(sweeps, bps);
    FeeFloors(GrossOf(sweeps) - StrikeOf(sweeps), bps);
  }

  // The credited figure per share is the premium figure plus the strike proceeds per share, short of
  // flooring each sweep's two parts apart.
  lemma {:induction false} PerShareWithinSweeps(sweeps: seq<HarvestEvent>, bps: nat)
    requires bps <= BPS && AllCharged(sweeps, bps)
    ensures var t := SweptBy(sweeps);
            0 <= t.usdgPerShare - t.premiumNetPerShare - StrikePerShare(sweeps) <= |sweeps|
  {
    if sweeps != [] {
      var n := |sweeps| - 1;
      PerShareWithinSweeps(sweeps[..n], bps);
      var h := sweeps[n];
      ChargedParts(h, bps);
      PerShareOfSum(SplitHarvest(h).premiumNet, h.usdgFromAssignment, h.supply);
    }
  }
}
