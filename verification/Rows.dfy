// The tables of indexer/ponder.schema.ts the vault handlers reduce onto. Left out are stamps (times,
// blocks, transaction hashes nobody reads back), keys copied beside their row and the vault row's
// settings, switches and multiplier columns.
module Rows {
  import opened Common
  import opened Lifecycle
  import opened Harvest

  // The strike and the window of the armed option type.
  datatype OptionTerms = OptionTerms(strikeUsdg: nat, exerciseTimestamp: nat, expiryTimestamp: nat)

  const NO_TERMS := OptionTerms(0, 0, 0)

  // The one vaultState row, its columns grouped by what moves together.

  datatype PhaseColumns = PhaseColumns(
    phase: Phase,
    cycleNumber: nat,
    optionId: Option<nat>,
    claimKey: Option<nat>,
    contractsWritten: nat,
    lockedCollateral: nat,
    listingHash: Option<Hash>,
    stranded: bool,
    strandGen: nat,
    lastResolvedGen: nat,
    strandedRemainingWad: nat,
    strandedCycleNumber: Option<nat>,
    rollCloseTx: Option<Hash>,
    terms: OptionTerms)

  datatype FundColumns = FundColumns(
    assetBalance: nat,
    usdgBalance: nat,
    reservedAssets: nat,
    usdgReservedForQueue: nat,
    totalUsdgClaimed: nat,
    lifetimeHaircutAssets: nat)

  datatype ShareColumns = ShareColumns(totalShares: nat, queuedShares: nat, epochId: nat)

  datatype MoneyColumns = MoneyColumns(
    lifetimePremiumGross: nat,
    lifetimeAssignmentUsdg: int,
    lifetimeProtocolFee: nat,
    lifetimePremiumNet: int,
    lifetimeStrikeProceeds: int,
    lifetimeCreditedUsdg: int,
    accUsdgPerShare: nat,
    totalUsdgDistributed: nat,
    usdgUnallocated: nat)

  datatype TallyColumns = TallyColumns(
    cyclesWritten: nat,
    cyclesFilled: nat,
    cyclesUnfilled: nat,
    cyclesAssigned: nat,
    cyclesStranded: nat)

  datatype ListingColumns = ListingColumns(
    listingsThisCycle: nat,
    lastCancelledHash: Option<Hash>,
    lastCancelledTx: Option<Hash>,
    seaportCounter: nat)

  datatype User = User(
    shares: nat,
    queuedShares: nat,
    queuedEpoch: Option<nat>,
    depositedAssets: nat,
    depositCount: nat,
    withdrawnAssets: nat,
    redeemedAssets: nat,
    redeemedUsdg: nat,
    claimedUsdg: nat,
    strandWad: nat,
    strandGen: Option<nat>,
    deferredUsdg: nat,
    haircutAssets: nat)

  const BARE_USER := User(0, 0, None, 0, 0, 0, 0, 0, 0, 0, None, 0, 0)

  datatype Cycle = Cycle(
    status: CycleStatus,
    optionId: Option<nat>,
    terms: OptionTerms,
    claimKey: Option<nat>,
    contractsWritten: nat,
    collateral: nat,
    writeCount: nat,
    listingCount: nat,
    orderHash: Option<Hash>,
    listedGrossUsdg: nat,
    listedUnitPriceUsdg: nat,
    listedContracts: nat,
    contractsSold: nat,
    premiumGross: nat,
    fillUnitPriceUsdg: nat,
    fillCount: nat,
    bucketIndex: Option<nat>,
    bucketAssigned: nat,
    contractsAssigned: nat,
    assignmentUsdg: nat,
    assetsReturned: nat,
    stranded: bool,
    strandGen: Option<nat>,
    harvested: bool,
    totals: HarvestTotals,
    supplyAtHarvest: nat)

  const BARE_CYCLE := Cycle(
    CycleStatus.Listed, None, NO_TERMS, None, 0, 0, 0, 0, None, 0, 0, 0, 0, 0, 0, 0, None, 0, 0, 0, 0, false, None, false,
    ZERO_TOTALS, 0)

  datatype EndReason = FilledUp | ByCancel | Counter | LockBook | AtRollClose

  datatype Listing = Listing(
    cycleNumber: nat,
    seq_: nat,
    amount: nat,
    grossUsdg: nat,
    unitPriceUsdg: nat,
    status: ListingStatus,
    contractsFilled: nat,
    proceedsUsdg: nat,
    fillCount: nat,
    endReason: Option<EndReason>)

  datatype Epoch = Epoch(
    settled: bool,
    cycleNumber: Option<nat>,
    sharesQueued: nat,
    queueCount: nat,
    sharesSettled: nat,
    assetsSettled: nat,
    usdgSettled: nat,
    sharesClaimed: nat,
    assetsClaimed: nat,
    usdgClaimed: nat,
    claimCount: nat,
    strandGen: Option<nat>,
    strandWad: nat,
    strandWadClaimed: nat)

  const BARE_EPOCH := Epoch(false, None, 0, 0, 0, 0, 0, 0, 0, 0, 0, None, 0, 0)

  datatype Strand = Strand(
    cycleNumber: nat,
    claimKey: nat,
    epochWad: nat,
    epochCount: nat,
    recovered: bool,
    recoveredTx: Option<Hash>,
    assetsIn: nat,
    usdgIn: nat,
    queueWad: nat,
    wadLeft: nat,
    assetsLeft: nat,
    usdgLeft: nat,
    settledCount: nat)

  datatype HarvestRow = HarvestRow(
    cycleNumber: nat,
    terminal: bool,
    origin: HarvestOrigin,
    filled: bool,
    event: HarvestEvent,
    split: HarvestSplit,
    assignmentUsdg: nat,
    contractsSold: nat,
    contractsAssigned: nat,
    accUsdgPerShare: nat)

  datatype Db = Db(
    week: PhaseColumns,
    funds: FundColumns,
    supply: ShareColumns,
    money: MoneyColumns,
    tally: TallyColumns,
    book: ListingColumns,
    users: map<Address, User>,
    cycles: map<nat, Cycle>,
    listings: map<Hash, Listing>,
    epochs: map<nat, Epoch>,
    strands: map<nat, Strand>,
    harvests: seq<HarvestRow>)

  // Every column has a default, so a fresh vaultState row is the vault at genesis.
  const EMPTY_DB := Db(
    PhaseColumns(Phase.Idle, 0, None, None, 0, 0, None, false, 0, 0, 0, None, None, NO_TERMS),
    FundColumns(0, 0, 0, 0, 0, 0),
    ShareColumns(0, 0, 1),
    MoneyColumns(0, 0, 0, 0, 0, 0, 0, 0, 0),
    TallyColumns(0, 0, 0, 0, 0),
    ListingColumns(0, None, None, 0),
    map[], map[], map[], map[], map[], [])

  function UserOf(t: Db, a: Address): User { Get(t.users, a, BARE_USER) }

  function CycleOf(t: Db, n: nat): Cycle { Get(t.cycles, n, BARE_CYCLE) }

  function EpochOf(t: Db, e: nat): Epoch { Get(t.epochs, e, BARE_EPOCH) }

  // Vault.idleAssets(): the raw balance less what is promised to settled redeemers.
  function IdleOf(f: FundColumns): nat { Sub(f.assetBalance, f.reservedAssets) }
}
