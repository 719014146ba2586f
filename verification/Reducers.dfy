// The specification of the index, table by table: what each log makes of each group of vaultState
// columns and of each table. Tape.dfy holds the handlers themselves, log by log and statement by
// statement, and proves that every one of them produces exactly these tables.
module Reducers {
  import opened Common
  import opened Lifecycle
  import opened Harvest
  import opened Rows
  import opened Logs

  // ---------------------------------------------------------------- the inferred origin of a Harvest

  function LastStrand(strands: map<nat, Strand>, lastResolvedGen: nat): Option<Strand> {
    if lastResolvedGen == 0 || lastResolvedGen !in strands then None else Some(strands[lastResolvedGen])
  }

  function OriginIn(t: Db, tx: Hash): HarvestOrigin {
    var last := LastStrand(t.strands, t.week.lastResolvedGen);
    OriginOf(t.week.rollCloseTx, t.week.phase, if last.Some? then last.value.recoveredTx else None, tx)
  }

  // The cycle a Harvest reads; null (a bare row that is never written) for cycle 0.
  function ViewOf(t: Db, cycleNumber: nat): Cycle {
    if cycleNumber == 0 then BARE_CYCLE else CycleOf(t, cycleNumber)
  }

  // The part of the sweep the vault charged no fee on, as far as the index can tell.
  function FeeFree(t: Db, tx: Hash, cycleNumber: nat): int {
    match OriginIn(t, tx)
    case RollClose => ViewOf(t, cycleNumber).assignmentUsdg
    case Retry =>
      var last := LastStrand(t.strands, t.week.lastResolvedGen);
      if last.Some? then RecoverStrand(last.value.assetsIn, last.value.usdgIn, last.value.queueWad).liveUsdg else 0
    case Checkpoint => 0
  }

  function HarvestEventOf(t: Db, tx: Hash, cycleNumber: nat, gross: nat, fee: nat, net: nat): HarvestEvent {
    HarvestEvent(gross, fee, net, FeeFree(t, tx, cycleNumber), t.supply.totalShares)
  }

  // ---------------------------------------------------------------- the armed option's terms

  function TermsOf(strikeUsdg: nat, r: WindowReads): OptionTerms {
    OptionTerms(strikeUsdg,
                if r.optionExercise == 0 then r.vaultExercise else r.optionExercise,
                if r.optionExpiry == 0 then r.vaultExpiry else r.optionExpiry)
  }

  // ---------------------------------------------------------------- the vaultState row

  function WeekAfter(t: Db, tx: Hash, log: Log): PhaseColumns {
    var w := t.week;
    match log
    case EpochStrandShare(_, _, wad) => w.(strandedRemainingWad := Sub(w.strandedRemainingWad, wad))
    case RollOpen(cycleNumber, optionId, strikeUsdg, window) =>
      w.(phase := Phase.Listed, cycleNumber := cycleNumber, optionId := Some(optionId), claimKey := None,
         contractsWritten := 0, lockedCollateral := 0, listingHash := None, terms := TermsOf(strikeUsdg, window))
    case CallsWritten(optionId, claimKey, contracts, collateral) =>
      w.(optionId := Some(optionId), claimKey := Some(claimKey), contractsWritten := w.contractsWritten + contracts,
         lockedCollateral := w.lockedCollateral + collateral)
    case BookLocked(_) => w.(phase := Phase.Exercisable, listingHash := None)
    case ClaimStranded(cycleNumber, _, gen) =>
      w.(stranded := true, strandGen := gen, strandedRemainingWad := WAD, strandedCycleNumber := Some(cycleNumber))
    case RollClose(_, _, _, _) =>
      w.(phase := Phase.Settling,
         lockedCollateral := if w.stranded then w.lockedCollateral else 0,
         optionId := OptionIdAfterClose(w.stranded, w.optionId),
         rollCloseTx := Some(tx))
    case ClaimRedeemed(_, _, _) => w.(claimKey := None, optionId := None, contractsWritten := 0, lockedCollateral := 0)
    case StrandedClaimRecovered(gen, _, _, _) =>
      w.(stranded := false, lastResolvedGen := gen, strandedRemainingWad := 0, strandedCycleNumber := None)
    case Harvest(_, _, _, _) => if OriginIn(t, tx) == HarvestOrigin.RollClose then w.(phase := Phase.Idle) else w
    case ListingApproved(orderHash, _, _, _) => w.(listingHash := Some(orderHash))
    case ListingCancelled(_) => w.(listingHash := None)
    case AllListingsInvalidated(_) => w.(listingHash := None)
    case OptionsWritten(optionId, claimId) => w.(optionId := Some(optionId), claimKey := Some(claimId))
    case _ => w
  }

  function FundsAfter(t: Db, log: Log): FundColumns {
    var f := t.funds;
    match log
    case AssetIn(amount) => f.(assetBalance := f.assetBalance + amount)
    case AssetOut(amount) => f.(assetBalance := Sub(f.assetBalance, amount))
    case UsdgIn(amount) => f.(usdgBalance := f.usdgBalance + amount)
    case UsdgOut(amount) => f.(usdgBalance := Sub(f.usdgBalance, amount))
    case QueueSettled(_, _, assets, usdg) =>
      f.(reservedAssets := f.reservedAssets + assets, usdgReservedForQueue := f.usdgReservedForQueue + usdg,
         totalUsdgClaimed := f.totalUsdgClaimed + usdg)
    case ReserveHaircut(_, booked, paid) =>
      f.(reservedAssets := Sub(f.reservedAssets, Sub(booked, paid)),
         lifetimeHaircutAssets := f.lifetimeHaircutAssets + Sub(booked, paid))
    case CompleteRedeem(_, assets, usdg) =>
      f.(reservedAssets := Sub(f.reservedAssets, assets), usdgReservedForQueue := Sub(f.usdgReservedForQueue, usdg))
    case ClaimUsdg(_, amount) => f.(totalUsdgClaimed := f.totalUsdgClaimed + amount)
    case StrandedClaimRecovered(_, assets, usdg, queueWad) =>
      var r := RecoverStrand(assets, usdg, queueWad);
      f.(reservedAssets := f.reservedAssets + r.queueAssets, usdgReservedForQueue := f.usdgReservedForQueue + r.queueUsdg)
    case _ => f
  }

  function SupplyAfter(t: Db, log: Log): ShareColumns {
    var s := t.supply;
    match log
    case Transfer(from, to, value) =>
      var minted := s.totalShares + if from == Zero then value else 0;
      s.(totalShares := if to == Zero then Sub(minted, value) else minted)
    case QueueRedeem(_, shares, epochId) => s.(queuedShares := s.queuedShares + shares, epochId := epochId)
    case QueueSettled(epochId, shares, _, _) => s.(queuedShares := Sub(s.queuedShares, shares), epochId := epochId + 1)
    case _ => s
  }

  function MoneyAfter(t: Db, tx: Hash, log: Log): MoneyColumns {
    var m := t.money;
    match log
    case RollClose(_, _, usdg, _) => m.(lifetimeAssignmentUsdg := m.lifetimeAssignmentUsdg + usdg)
    case StrandedClaimRecovered(_, _, usdg, _) => m.(lifetimeAssignmentUsdg := m.lifetimeAssignmentUsdg + usdg)
    case Harvest(cycleNumber, gross, fee, net) =>
      var split := SplitHarvest(HarvestEventOf(t, tx, cycleNumber, gross, fee, net));
      m.(lifetimeProtocolFee := m.lifetimeProtocolFee + fee,
         lifetimePremiumNet := m.lifetimePremiumNet + split.premiumNet,
         lifetimeStrikeProceeds := m.lifetimeStrikeProceeds + split.strikeProceeds,
         lifetimeCreditedUsdg := m.lifetimeCreditedUsdg + net)
    case OrderFulfilled(_, offerer, _, consideration) =>
      if offerer == Vault then m.(lifetimePremiumGross := m.lifetimePremiumGross + ToVault(consideration)) else m
    case UsdgDistributed(amount, accUsdgPerShare) =>
      m.(accUsdgPerShare := accUsdgPerShare, totalUsdgDistributed := m.totalUsdgDistributed + amount, usdgUnallocated := 0)
    case UsdgUnallocated(total) => m.(usdgUnallocated := total)
    case _ => m
  }

  function TallyAfter(t: Db, tx: Hash, log: Log): TallyColumns {
    var y := t.tally;
    match log
    case RollOpen(_, _, _, _) => y.(cyclesWritten := y.cyclesWritten + 1)
    case ClaimStranded(_, _, _) => y.(cyclesStranded := y.cyclesStranded + 1)
    case Harvest(cycleNumber, _, _, _) =>
      var c := ViewOf(t, cycleNumber);
      if OriginIn(t, tx) != HarvestOrigin.RollClose then y
      else
        y.(cyclesFilled := y.cyclesFilled + if c.contractsWritten > 0 then 1 else 0,
           cyclesUnfilled := y.cyclesUnfilled + if c.contractsWritten > 0 then 0 else 1,
           cyclesAssigned := y.cyclesAssigned + if c.contractsAssigned > 0 then 1 else 0)
    case _ => y
  }

  function BookAfter(t: Db, tx: Hash, log: Log): ListingColumns {
    match log
    case RollOpen(_, _, _, _) => t.book.(listingsThisCycle := 0)
    case ListingApproved(_, _, _, seq_) => t.book.(listingsThisCycle := seq_)
    case ListingCancelled(orderHash) => t.book.(lastCancelledHash := Some(orderHash), lastCancelledTx := Some(tx))
    case AllListingsInvalidated(newCounter) => t.book.(seaportCounter := newCounter)
    case CounterIncremented(newCounter) => t.book.(seaportCounter := newCounter)
    case _ => t.book
  }

  // ---------------------------------------------------------------- users

  function Debited(users: map<Address, User>, a: Address, value: nat): map<Address, User> {
    if !a.Account? then users
    else var u := Get(users, a, BARE_USER); users[a := u.(shares := Sub(u.shares, value))]
  }

  function Credited(users: map<Address, User>, a: Address, value: nat): map<Address, User> {
    if !a.Account? then users
    else var u := Get(users, a, BARE_USER); users[a := u.(shares := u.shares + value)]
  }

  // The slice of an epoch's strand share that one settling entry takes.
  function EntryShareOf(ep: Epoch, shares: nat): nat {
    if ep.strandGen == None then 0
    else EntryStrandShare(ep.sharesSettled, ep.sharesClaimed, ep.strandWad, ep.strandWadClaimed, shares)
  }

  function Unqueued(u: User, ep: Epoch, shares: nat): User {
    var share := EntryShareOf(ep, shares);
    var left := u.(queuedShares := 0, queuedEpoch := None);
    if share == 0 then left else left.(strandWad := left.strandWad + share, strandGen := ep.strandGen)
  }

  function Unstranded(u: User, wad: nat): User {
    var rest := Sub(u.strandWad, wad);
    u.(strandWad := rest, strandGen := if rest == 0 then None else u.strandGen)
  }

  function Paid(u: User, assets: nat, usdg: nat): User {
    u.(redeemedAssets := u.redeemedAssets + assets,
       redeemedUsdg := u.redeemedUsdg + usdg,
       deferredUsdg := if usdg > 0 then 0 else u.deferredUsdg)
  }

  // The one user row a log moves, and what it becomes; Transfer moves up to two.
  function OwnerOf(log: Log): Option<Address> {
    match log
    case Deposit(owner, _) => Some(owner)
    case Withdraw(owner, _) => Some(owner)
    case QueueRedeem(owner, _, _) => Some(owner)
    case QueueEntrySettled(owner, _, _, _, _) => Some(owner)
    case StrandShareSettled(owner, _, _, _, _) => Some(owner)
    case ReserveHaircut(owner, _, _) => Some(owner)
    case UsdgLegDeferred(owner, _) => Some(owner)
    case CompleteRedeem(owner, _, _) => Some(owner)
    case ClaimUsdg(owner, _) => Some(owner)
    case _ => None
  }

  function UserAfter(t: Db, log: Log, u: User): User {
    match log
    case Deposit(_, assets) => u.(depositedAssets := u.depositedAssets + assets, depositCount := u.depositCount + 1)
    case Withdraw(_, assets) => u.(withdrawnAssets := u.withdrawnAssets + assets)
    case QueueRedeem(_, shares, epochId) => u.(queuedShares := u.queuedShares + shares, queuedEpoch := Some(epochId))
    case QueueEntrySettled(_, epochId, shares, _, _) => Unqueued(u, EpochOf(t, epochId), shares)
    case StrandShareSettled(_, _, wad, _, _) => Unstranded(u, wad)
    case ReserveHaircut(_, booked, paid) => u.(haircutAssets := u.haircutAssets + Sub(booked, paid))
    case UsdgLegDeferred(_, usdg) => u.(deferredUsdg := usdg)
    case CompleteRedeem(_, assets, usdg) => Paid(u, assets, usdg)
    case ClaimUsdg(_, amount) => u.(claimedUsdg := u.claimedUsdg + amount)
    case _ => u
  }

  function UsersAfter(t: Db, log: Log): map<Address, User> {
    match log
    case Transfer(from, to, value) => if value == 0 then t.users else Credited(Debited(t.users, from, value), to, value)
    case _ =>
      match OwnerOf(log)
      case None => t.users
      case Some(owner) => t.users[owner := UserAfter(t, log, UserOf(t, owner))]
  }

  // ---------------------------------------------------------------- queue epochs and strands

  function Settled(ep: Epoch, cycleNumber: Option<nat>, shares: nat, assets: nat, usdg: nat): Epoch {
    ep.(settled := true, cycleNumber := cycleNumber, sharesSettled := shares, assetsSettled := assets, usdgSettled := usdg)
  }

  function Drawn(ep: Epoch, shares: nat, assets: nat, usdg: nat): Epoch {
    ep.(sharesClaimed := ep.sharesClaimed + shares,
        assetsClaimed := ep.assetsClaimed + assets,
        usdgClaimed := ep.usdgClaimed + usdg,
        claimCount := ep.claimCount + 1,
        strandWadClaimed := ep.strandWadClaimed + EntryShareOf(ep, shares))
  }

  function EpochsAfter(t: Db, tx: Hash, log: Log): map<nat, Epoch> {
    match log
    case QueueRedeem(_, shares, epochId) =>
      var ep := EpochOf(t, epochId);
      t.epochs[epochId := ep.(sharesQueued := ep.sharesQueued + shares, queueCount := ep.queueCount + 1)]
    case EpochStrandShare(epochId, gen, wad) => t.epochs[epochId := EpochOf(t, epochId).(strandGen := Some(gen), strandWad := wad)]
    case QueueSettled(epochId, shares, assets, usdg) =>
      var cycleNumber := SettlementCycle(t.week.rollCloseTx, t.week.cycleNumber, tx);
      var epochs := t.epochs[epochId := Settled(EpochOf(t, epochId), cycleNumber, shares, assets, usdg)];
      epochs[epochId + 1 := Get(epochs, epochId + 1, BARE_EPOCH)]
    case QueueEntrySettled(_, epochId, shares, assets, usdg) => t.epochs[epochId := Drawn(EpochOf(t, epochId), shares, assets, usdg)]
    case _ => t.epochs
  }

  function RecoveredStrand(s: Strand, tx: Hash, assets: nat, usdg: nat, queueWad: nat): Strand {
    var r := RecoverStrand(assets, usdg, queueWad);
    s.(recovered := true, recoveredTx := Some(tx), assetsIn := assets, usdgIn := usdg, queueWad := queueWad,
       wadLeft := queueWad, assetsLeft := r.queueAssets, usdgLeft := r.queueUsdg)
  }

  function StrandsAfter(t: Db, tx: Hash, log: Log): map<nat, Strand> {
    match log
    case EpochStrandShare(_, gen, wad) =>
      if gen !in t.strands then t.strands
      else var s := t.strands[gen]; t.strands[gen := s.(epochWad := s.epochWad + wad, epochCount := s.epochCount + 1)]
    case StrandShareSettled(_, gen, wad, assets, usdg) =>
      if gen !in t.strands then t.strands
      else
        var s := t.strands[gen];
        t.strands[gen := s.(wadLeft := Sub(s.wadLeft, wad), assetsLeft := Sub(s.assetsLeft, assets),
                            usdgLeft := Sub(s.usdgLeft, usdg), settledCount := s.settledCount + 1)]
    case ClaimStranded(cycleNumber, claimKey, gen) =>
      if gen in t.strands then t.strands
      else t.strands[gen := Strand(cycleNumber, claimKey, 0, 0, false, None, 0, 0, 0, 0, 0, 0, 0)]
    case StrandedClaimRecovered(gen, assets, usdg, queueWad) =>
      if gen !in t.strands then t.strands else t.strands[gen := RecoveredStrand(t.strands[gen], tx, assets, usdg, queueWad)]
    case _ => t.strands
  }

  // ---------------------------------------------------------------- cycles

  function Written(c: Cycle, claimKey: nat, contracts: nat, collateral: nat): Cycle {
    c.(claimKey := Some(claimKey), contractsWritten := c.contractsWritten + contracts,
       collateral := c.collateral + collateral, writeCount := c.writeCount + 1)
  }

  function Sold(c: Cycle, contracts: nat, paid: nat): Cycle {
    c.(status := if c.status == CycleStatus.Listed then CycleStatus.Filled else c.status,
       contractsSold := c.contractsSold + contracts,
       premiumGross := c.premiumGross + paid,
       fillUnitPriceUsdg := SafeDiv(c.premiumGross + paid, c.contractsSold + contracts),
       fillCount := c.fillCount + 1)
  }

  // A harvest on its cycle's row: accumulated when it belongs to the week, and the verdict on the terminal one.
  function Swept(c: Cycle, h: HarvestEvent, origin: HarvestOrigin, stranded: bool): Cycle {
    if !HarvestTouchesCycle(true, c.harvested, origin) then c
    else
      var added := c.(totals := AddHarvest(c.totals, h), supplyAtHarvest := h.supply);
      if origin == HarvestOrigin.RollClose
      then added.(status := CloseStatus(stranded, c.contractsWritten, c.contractsAssigned), harvested := true)
      else added
  }

  // The one cycle row a log reads and writes back, if any.
  function CycleTouched(t: Db, log: Log): Option<nat> {
    var live := if t.week.cycleNumber == 0 then None else Some(t.week.cycleNumber);
    match log
    case RollOpen(n, _, _, _) => Some(n)
    case CallsWritten(_, _, _, _) => live
    case BookLocked(n) => Some(n)
    case ClaimStranded(n, _, _) => Some(n)
    case RollClose(n, _, _, _) => Some(n)
    case ClaimRedeemed(_, _, _) => if t.week.stranded then t.week.strandedCycleNumber else None
    case StrandedClaimRecovered(_, _, _, _) => t.week.strandedCycleNumber
    case Harvest(n, _, _, _) => if n == 0 then None else Some(n)
    case ListingApproved(_, _, _, _) => Some(t.week.cycleNumber)
    case OrderFulfilled(orderHash, offerer, _, _) =>
      if offerer != Vault then None
      else if orderHash !in t.listings then live
      else if t.listings[orderHash].cycleNumber == 0 then None
      else Some(t.listings[orderHash].cycleNumber)
    case BucketWrittenInto(claimId, _) => if t.week.claimKey == Some(claimId) then live else None
    case BucketAssignedExercise(optionId, _, _) => if t.week.optionId == Some(optionId) then live else None
    case ClearClaimRedeemed(_, _) =>
      if !t.week.stranded then live else if t.week.strandedCycleNumber == Some(0) then None else t.week.strandedCycleNumber
    case _ => None
  }

  function CycleRowAfter(t: Db, tx: Hash, log: Log, c: Cycle): Cycle {
    match log
    case RollOpen(_, optionId, strikeUsdg, window) =>
      c.(status := CycleStatus.Listed, optionId := Some(optionId), terms := TermsOf(strikeUsdg, window))
    case CallsWritten(_, claimKey, contracts, collateral) => Written(c, claimKey, contracts, collateral)
    case ClaimStranded(_, _, gen) => c.(stranded := true, strandGen := Some(gen))
    case RollClose(_, assets, usdg, assignedCount) =>
      c.(assetsReturned := assets, assignmentUsdg := usdg, contractsAssigned := assignedCount)
    case ClaimRedeemed(_, assets, usdg) => c.(assetsReturned := assets, assignmentUsdg := usdg)
    case StrandedClaimRecovered(_, _, _, _) => c.(status := RecoveredStatus(c.contractsAssigned))
    case Harvest(n, gross, fee, net) =>
      Swept(c, HarvestEventOf(t, tx, n, gross, fee, net), OriginIn(t, tx), t.week.stranded)
    case ListingApproved(orderHash, amount, gross, seq_) =>
      c.(listingCount := seq_, orderHash := Some(orderHash), listedGrossUsdg := gross,
         listedUnitPriceUsdg := SafeDiv(gross, amount), listedContracts := amount)
    case OrderFulfilled(_, _, offer, consideration) => Sold(c, Contracts(offer), ToVault(consideration))
    case BucketWrittenInto(_, bucketIndex) => if c.bucketIndex == None then c.(bucketIndex := Some(bucketIndex)) else c
    case BucketAssignedExercise(_, bucketIndex, amount) =>
      if c.bucketIndex == Some(bucketIndex) then c.(bucketAssigned := c.bucketAssigned + amount) else c
    case ClearClaimRedeemed(assets, usdg) => c.(assetsReturned := assets, assignmentUsdg := usdg)
    case _ => c
  }

  function CyclesAfter(t: Db, tx: Hash, log: Log): map<nat, Cycle> {
    match CycleTouched(t, log)
    case None => t.cycles
    case Some(n) => t.cycles[n := CycleRowAfter(t, tx, log, CycleOf(t, n))]
  }

  // ---------------------------------------------------------------- listings and harvests

  function Bought(l: Listing, contracts: nat, paid: nat): Listing {
    var soFar := l.contractsFilled + contracts;
    l.(contractsFilled := soFar,
       proceedsUsdg := l.proceedsUsdg + paid,
       fillCount := l.fillCount + 1,
       status := if soFar >= l.amount then ListingStatus.Filled else ListingStatus.PartiallyFilled,
       endReason := if soFar >= l.amount then Some(FilledUp) else l.endReason)
  }

  // The one listing row a log touches, if any: a cancelled listing is left alone once it has filled,
  // and a counter bump names the listing cancelled earlier in its own transaction.
  function ListingTouched(t: Db, tx: Hash, log: Log): Option<Hash> {
    var named :=
      match log
      case ListingCancelled(orderHash) => Some(orderHash)
      case OrderCancelled(orderHash) => Some(orderHash)
      case BookLocked(_) => if t.book.lastCancelledTx == Some(tx) then t.book.lastCancelledHash else None
      case RollClose(_, _, _, _) => if t.book.lastCancelledTx == Some(tx) then t.book.lastCancelledHash else None
      case AllListingsInvalidated(_) => if t.book.lastCancelledTx == Some(tx) then t.book.lastCancelledHash else None
      case OrderFulfilled(orderHash, offerer, _, _) => if offerer == Vault then Some(orderHash) else None
      case _ => None;
    if named.Some? && named.value in t.listings
       && (log.OrderFulfilled? || t.listings[named.value].status != ListingStatus.Filled)
    then named else None
  }

  function ListingRowAfter(log: Log, l: Listing): Listing {
    match log
    case ListingCancelled(_) => l.(status := EndedListingStatus(l.contractsFilled), endReason := Some(ByCancel))
    case OrderCancelled(_) =>
      l.(status := EndedListingStatus(l.contractsFilled),
         endReason := if l.endReason == None then Some(ByCancel) else l.endReason)
    case BookLocked(_) => l.(endReason := Some(LockBook))
    case RollClose(_, _, _, _) => l.(endReason := Some(AtRollClose))
    case AllListingsInvalidated(_) => l.(endReason := Some(Counter))
    case OrderFulfilled(_, _, offer, consideration) => Bought(l, Contracts(offer), ToVault(consideration))
    case _ => l
  }

  function ListingsAfter(t: Db, tx: Hash, log: Log): map<Hash, Listing> {
    match log
    case ListingApproved(orderHash, amount, gross, seq_) =>
      if orderHash in t.listings then t.listings
      else t.listings[orderHash := Listing(t.week.cycleNumber, seq_, amount, gross, SafeDiv(gross, amount),
                                           ListingStatus.Approved, 0, 0, 0, None)]
    case _ =>
      match ListingTouched(t, tx, log)
      case None => t.listings
      case Some(h) => t.listings[h := ListingRowAfter(log, t.listings[h])]
  }

  function HarvestRowOf(t: Db, tx: Hash, n: nat, gross: nat, fee: nat, net: nat): HarvestRow {
    var c := ViewOf(t, n);
    var origin := OriginIn(t, tx);
    var h := HarvestEventOf(t, tx, n, gross, fee, net);
    HarvestRow(n, origin == HarvestOrigin.RollClose, origin, c.contractsWritten > 0, h, SplitHarvest(h),
               c.assignmentUsdg, c.contractsSold, c.contractsAssigned, t.money.accUsdgPerShare)
  }

  function HarvestsAfter(t: Db, tx: Hash, log: Log): seq<HarvestRow> {
    match log
    case Harvest(n, gross, fee, net) => t.harvests + [HarvestRowOf(t, tx, n, gross, fee, net)]
    case _ => t.harvests
  }

  // ---------------------------------------------------------------- the whole database after one log

  function Reduce(t: Db, tx: Hash, log: Log): Db {
    Db(WeekAfter(t, tx, log), FundsAfter(t, log), SupplyAfter(t, log), MoneyAfter(t, tx, log), TallyAfter(t, tx, log),
       BookAfter(t, tx, log), UsersAfter(t, log), CyclesAfter(t, tx, log), ListingsAfter(t, tx, log),
       EpochsAfter(t, tx, log), StrandsAfter(t, tx, log), HarvestsAfter(t, tx, log))
  }
}
