// The index itself: one object whose fields are the vaultState row and the tables, and one method
// per handler, written statement by statement as the source writes it. Each handler is proved to
// leave exactly the tables Reducers.dfy specifies.
module Tape {
  import opened Common
  import opened History
  import opened Lifecycle
  import opened Harvest
  import opened Rows
  import opened Logs
  import opened Reducers

  lemma PutTwice<K, V>(m: map<K, V>, k: K, v: V, w: V)
    ensures m[k := v][k := w] == m[k := w]
  {
  }

  // ---------------------------------------------------------------- which columns and tables a log can move at all

  lemma OnlyFunds(t: Db, tx: Hash, log: Log)
    requires log.AssetIn? || log.AssetOut? || log.UsdgIn? || log.UsdgOut?
    ensures Reduce(t, tx, log) == t.(funds := FundsAfter(t, log))
  {
  }

  lemma OnlySupplyUsers(t: Db, tx: Hash, log: Log)
    requires log.Transfer?
    ensures Reduce(t, tx, log) == t.(supply := SupplyAfter(t, log), users := UsersAfter(t, log))
  {
  }

  lemma OnlyUsers(t: Db, tx: Hash, log: Log)
    requires log.Deposit? || log.Withdraw? || log.UsdgLegDeferred?
    ensures Reduce(t, tx, log) == t.(users := UsersAfter(t, log))
  {
  }

  lemma OnlySupplyUsersEpochs(t: Db, tx: Hash, log: Log)
    requires log.QueueRedeem?
    ensures Reduce(t, tx, log) == t.(supply := SupplyAfter(t, log), users := UsersAfter(t, log), epochs := EpochsAfter(t, tx, log))
  {
  }

  lemma OnlyWeekEpochsStrands(t: Db, tx: Hash, log: Log)
    requires log.EpochStrandShare?
    ensures Reduce(t, tx, log) == t.(week := WeekAfter(t, tx, log), epochs := EpochsAfter(t, tx, log), strands := StrandsAfter(t, tx, log))
  {
  }

  lemma OnlyFundsSupplyEpochs(t: Db, tx: Hash, log: Log)
    requires log.QueueSettled?
    ensures Reduce(t, tx, log) == t.(funds := FundsAfter(t, log), supply := SupplyAfter(t, log), epochs := EpochsAfter(t, tx, log))
  {
  }

  lemma OnlyUsersEpochs(t: Db, tx: Hash, log: Log)
    requires log.QueueEntrySettled?
    ensures Reduce(t, tx, log) == t.(users := UsersAfter(t, log), epochs := EpochsAfter(t, tx, log))
  {
  }

  lemma OnlyUsersStrands(t: Db, tx: Hash, log: Log)
    requires log.StrandShareSettled?
    ensures Reduce(t, tx, log) == t.(users := UsersAfter(t, log), strands := StrandsAfter(t, tx, log))
  {
  }

  lemma OnlyFundsUsers(t: Db, tx: Hash, log: Log)
    requires log.ReserveHaircut? || log.CompleteRedeem? || log.ClaimUsdg?
    ensures Reduce(t, tx, log) == t.(funds := FundsAfter(t, log), users := UsersAfter(t, log))
  {
  }

  lemma OnlyWeekTallyBookCycles(t: Db, tx: Hash, log: Log)
    requires log.RollOpen?
    ensures Reduce(t, tx, log) == t.(week := WeekAfter(t, tx, log), tally := TallyAfter(t, tx, log), book := BookAfter(t, tx, log), cycles := CyclesAfter(t, tx, log))
  {
  }

  lemma OnlyWeekCycles(t: Db, tx: Hash, log: Log)
    requires log.CallsWritten? || log.ClaimRedeemed?
    ensures Reduce(t, tx, log) == t.(week := WeekAfter(t, tx, log), cycles := CyclesAfter(t, tx, log))
  {
  }

  lemma OnlyWeekCyclesListings(t: Db, tx: Hash, log: Log)
    requires log.BookLocked?
    ensures Reduce(t, tx, log) == t.(week := WeekAfter(t, tx, log), cycles := CyclesAfter(t, tx, log), listings := ListingsAfter(t, tx, log))
  {
  }

  lemma OnlyWeekTallyCyclesStrands(t: Db, tx: Hash, log: Log)
    requires log.ClaimStranded?
    ensures Reduce(t, tx, log) == t.(week := WeekAfter(t, tx, log), tally := TallyAfter(t, tx, log), cycles := CyclesAfter(t, tx, log), strands := StrandsAfter(t, tx, log))
  {
  }

  lemma OnlyWeekMoneyCyclesListings(t: Db, tx: Hash, log: Log)
    requires log.RollClose?
    ensures Reduce(t, tx, log) == t.(week := WeekAfter(t, tx, log), money := MoneyAfter(t, tx, log), cycles := CyclesAfter(t, tx, log), listings := ListingsAfter(t, tx, log))
  {
  }

  lemma OnlyWeekFundsMoneyCyclesStrands(t: Db, tx: Hash, log: Log)
    requires log.StrandedClaimRecovered?
    ensures Reduce(t, tx, log) == t.(week := WeekAfter(t, tx, log), funds := FundsAfter(t, log), money := MoneyAfter(t, tx, log), cycles := CyclesAfter(t, tx, log), strands := StrandsAfter(t, tx, log))
  {
  }

  lemma OnlyWeekMoneyTallyCyclesHarvests(t: Db, tx: Hash, log: Log)
    requires log.Harvest?
    ensures Reduce(t, tx, log) == t.(week := WeekAfter(t, tx, log), money := MoneyAfter(t, tx, log), tally := TallyAfter(t, tx, log), cycles := CyclesAfter(t, tx, log), harvests := HarvestsAfter(t, tx, log))
  {
  }

  lemma OnlyWeekBookCyclesListings(t: Db, tx: Hash, log: Log)
    requires log.ListingApproved?
    ensures Reduce(t, tx, log) == t.(week := WeekAfter(t, tx, log), book := BookAfter(t, tx, log), cycles := CyclesAfter(t, tx, log), listings := ListingsAfter(t, tx, log))
  {
  }

  lemma OnlyWeekBookListings(t: Db, tx: Hash, log: Log)
    requires log.ListingCancelled? || log.AllListingsInvalidated?
    ensures Reduce(t, tx, log) == t.(week := WeekAfter(t, tx, log), book := BookAfter(t, tx, log), listings := ListingsAfter(t, tx, log))
  {
  }

  lemma OnlyBook(t: Db, tx: Hash, log: Log)
    requires log.CounterIncremented?
    ensures Reduce(t, tx, log) == t.(book := BookAfter(t, tx, log))
  {
  }

  lemma OnlyMoney(t: Db, tx: Hash, log: Log)
    requires log.UsdgDistributed? || log.UsdgUnallocated?
    ensures Reduce(t, tx, log) == t.(money := MoneyAfter(t, tx, log))
  {
  }

  lemma OnlyMoneyCyclesListings(t: Db, tx: Hash, log: Log)
    requires log.OrderFulfilled?
    ensures Reduce(t, tx, log) == t.(money := MoneyAfter(t, tx, log), cycles := CyclesAfter(t, tx, log), listings := ListingsAfter(t, tx, log))
  {
  }

  lemma OnlyListings(t: Db, tx: Hash, log: Log)
    requires log.OrderCancelled?
    ensures Reduce(t, tx, log) == t.(listings := ListingsAfter(t, tx, log))
  {
  }

  lemma OnlyWeek(t: Db, tx: Hash, log: Log)
    requires log.OptionsWritten?
    ensures Reduce(t, tx, log) == t.(week := WeekAfter(t, tx, log))
  {
  }

  lemma OnlyCycles(t: Db, tx: Hash, log: Log)
    requires log.BucketWrittenInto? || log.BucketAssignedExercise? || log.ClearClaimRedeemed?
    ensures Reduce(t, tx, log) == t.(cycles := CyclesAfter(t, tx, log))
  {
  }

  // The logs of the phase machine and of the week's money.
  predicate OfWeek(log: Log) {
    log.RollOpen? || log.CallsWritten? || log.BookLocked? || log.ClaimStranded? || log.RollClose? || log.ClaimRedeemed?
    || log.StrandedClaimRecovered? || log.Harvest? || log.UsdgDistributed? || log.UsdgUnallocated?
  }

  // The logs of listings, of Seaport and of Valorem.
  predicate OfVenues(log: Log) {
    log.ListingApproved? || log.ListingCancelled? || log.AllListingsInvalidated? || log.OrderFulfilled? || log.OrderCancelled?
    || log.CounterIncremented? || log.OptionsWritten? || log.BucketWrittenInto? || log.BucketAssignedExercise?
    || log.ClearClaimRedeemed?
  }

  // The logs of the redeem queue and of claims on the vault.
  predicate OfQueue(log: Log) {
    log.QueueRedeem? || log.EpochStrandShare? || log.QueueSettled? || log.QueueEntrySettled? || log.StrandShareSettled?
    || log.ReserveHaircut? || log.UsdgLegDeferred? || log.CompleteRedeem? || log.ClaimUsdg?
  }

  class Index {
    var week: PhaseColumns
    var funds: FundColumns
    var supply: ShareColumns
    var money: MoneyColumns
    var tally: TallyColumns
    var book: ListingColumns
    var users: map<Address, User>
    var cycles: map<nat, Cycle>
    var listings: map<Hash, Listing>
    var epochs: map<nat, Epoch>
    var strands: map<nat, Strand>
    var harvests: seq<HarvestRow>

    function Rows(): Db
      reads this
    {
      Db(week, funds, supply, money, tally, book, users, cycles, listings, epochs, strands, harvests)
    }

    constructor ()
      ensures Rows() == EMPTY_DB
    {
      week, funds, supply := EMPTY_DB.week, EMPTY_DB.funds, EMPTY_DB.supply;
      money, tally, book := EMPTY_DB.money, EMPTY_DB.tally, EMPTY_DB.book;
      users, cycles, listings, epochs, strands, harvests := map[], map[], map[], map[], map[], [];
    }

    // ---------------------------------------------------------------- read or create

    method GetUser(a: Address) returns (u: User)
      modifies this`users
      ensures u == Get(old(users), a, BARE_USER) && users == old(users)[a := u]
    {
      if a !in users {
        users := users[a := BARE_USER];
      }
      u := users[a];
    }

    method GetCycle(n: nat) returns (c: Cycle)
      modifies this`cycles
      ensures c == Get(old(cycles), n, BARE_CYCLE) && cycles == old(cycles)[n := c]
    {
      if n !in cycles {
        cycles := cycles[n := BARE_CYCLE];
      }
      c := cycles[n];
    }

    method GetEpoch(e: nat) returns (ep: Epoch)
      modifies this`epochs
      ensures ep == Get(old(epochs), e, BARE_EPOCH) && epochs == old(epochs)[e := ep]
    {
      if e !in epochs {
        epochs := epochs[e := BARE_EPOCH];
      }
      ep := epochs[e];
    }

    // ---------------------------------------------------------------- token balances

    method OnAssetIn(tx: Hash, amount: nat)
      modifies this`funds
      ensures funds == FundsAfter(old(Rows()), AssetIn(amount))
    {
      funds := funds.(assetBalance := funds.assetBalance + amount);
    }

    method OnAssetOut(tx: Hash, amount: nat)
      modifies this`funds
      ensures funds == FundsAfter(old(Rows()), AssetOut(amount))
    {
      funds := funds.(assetBalance := Sub(funds.assetBalance, amount));
    }

    method OnUsdgIn(tx: Hash, amount: nat)
      modifies this`funds
      ensures funds == FundsAfter(old(Rows()), UsdgIn(amount))
    {
      funds := funds.(usdgBalance := funds.usdgBalance + amount);
    }

    method OnUsdgOut(tx: Hash, amount: nat)
      modifies this`funds
      ensures funds == FundsAfter(old(Rows()), UsdgOut(amount))
    {
      funds := funds.(usdgBalance := Sub(funds.usdgBalance, amount));
    }

    // ---------------------------------------------------------------- shares

    method OnTransfer(tx: Hash, from: Address, to: Address, value: nat)
      modifies this`supply, this`users
      ensures supply == SupplyAfter(old(Rows()), Transfer(from, to, value))
      ensures users == UsersAfter(old(Rows()), Transfer(from, to, value))
    {
      if value == 0 {
        return;
      }
      var totalShares := supply.totalShares;
      if from == Zero {
        totalShares := totalShares + value;
      }
      if to == Zero {
        totalShares := Sub(totalShares, value);
      }
      if totalShares != supply.totalShares {
        supply := supply.(totalShares := totalShares);
      }
      if from.Account? {
        var u := GetUser(from);
        users := users[from := u.(shares := Sub(u.shares, value))];
        PutTwice(old(users), from, u, users[from]);
      }
      ghost var mid := users;
      if to.Account? {
        var u := GetUser(to);
        users := users[to := u.(shares := u.shares + value)];
        PutTwice(mid, to, u, users[to]);
      }
    }

    method OnDeposit(tx: Hash, owner: Address, assets: nat)
      modifies this`users
      ensures users == UsersAfter(old(Rows()), Deposit(owner, assets))
    {
      var u := GetUser(owner);
      users := users[owner := u.(depositedAssets := u.depositedAssets + assets, depositCount := u.depositCount + 1)];
    }

    method OnWithdraw(tx: Hash, owner: Address, assets: nat)
      modifies this`users
      ensures users == UsersAfter(old(Rows()), Withdraw(owner, assets))
    {
      var u := GetUser(owner);
      users := users[owner := u.(withdrawnAssets := u.withdrawnAssets + assets)];
    }

    // ---------------------------------------------------------------- the redeem queue

    method OnQueueRedeem(tx: Hash, owner: Address, shares: nat, epochId: nat)
      modifies this`supply, this`users, this`epochs
      ensures supply == SupplyAfter(old(Rows()), QueueRedeem(owner, shares, epochId))
      ensures users == UsersAfter(old(Rows()), QueueRedeem(owner, shares, epochId))
      ensures epochs == EpochsAfter(old(Rows()), tx, QueueRedeem(owner, shares, epochId))
    {
      supply := supply.(queuedShares := supply.queuedShares + shares, epochId := epochId);
      var ep := GetEpoch(epochId);
      epochs := epochs[epochId := ep.(sharesQueued := ep.sharesQueued + shares, queueCount := ep.queueCount + 1)];
      var u := GetUser(owner);
      users := users[owner := u.(queuedShares := u.queuedShares + shares, queuedEpoch := Some(epochId))];
      PutTwice(old(epochs), epochId, ep, epochs[epochId]);
      PutTwice(old(users), owner, u, users[owner]);
    }

    method OnEpochStrandShare(tx: Hash, epochId: nat, gen: nat, wad: nat)
      modifies this`week, this`epochs, this`strands
      ensures week == WeekAfter(old(Rows()), tx, EpochStrandShare(epochId, gen, wad))
      ensures epochs == EpochsAfter(old(Rows()), tx, EpochStrandShare(epochId, gen, wad))
      ensures strands == StrandsAfter(old(Rows()), tx, EpochStrandShare(epochId, gen, wad))
    {
      week := week.(strandedRemainingWad := Sub(week.strandedRemainingWad, wad));
      var ep := GetEpoch(epochId);
      epochs := epochs[epochId := ep.(strandGen := Some(gen), strandWad := wad)];
      if gen in strands {
        var s := strands[gen];
        strands := strands[gen := s.(epochWad := s.epochWad + wad, epochCount := s.epochCount + 1)];
      }
    }

    method OnQueueSettled(tx: Hash, epochId: nat, shares: nat, assets: nat, usdg: nat)
      modifies this`funds, this`supply, this`epochs
      ensures funds == FundsAfter(old(Rows()), QueueSettled(epochId, shares, assets, usdg))
      ensures supply == SupplyAfter(old(Rows()), QueueSettled(epochId, shares, assets, usdg))
      ensures epochs == EpochsAfter(old(Rows()), tx, QueueSettled(epochId, shares, assets, usdg))
    {
      var cycleNumber := SettlementCycle(week.rollCloseTx, week.cycleNumber, tx);
      supply := supply.(queuedShares := Sub(supply.queuedShares, shares), epochId := epochId + 1);
      funds := funds.(reservedAssets := funds.reservedAssets + assets,
                      usdgReservedForQueue := funds.usdgReservedForQueue + usdg,
                      totalUsdgClaimed := funds.totalUsdgClaimed + usdg);
      var ep := GetEpoch(epochId);
      epochs := epochs[epochId := ep.(settled := true, cycleNumber := cycleNumber, sharesSettled := shares,
                                      assetsSettled := assets, usdgSettled := usdg)];
      var next := GetEpoch(epochId + 1);
    }

    method OnQueueEntrySettled(tx: Hash, owner: Address, epochId: nat, shares: nat, assets: nat, usdg: nat)
      modifies this`users, this`epochs
      ensures users == UsersAfter(old(Rows()), QueueEntrySettled(owner, epochId, shares, assets, usdg))
      ensures epochs == EpochsAfter(old(Rows()), tx, QueueEntrySettled(owner, epochId, shares, assets, usdg))
    {
      hide EntryShareOf;
      var ep := GetEpoch(epochId);
      var strandShare := EntryShareOf(ep, shares);
      UnqueueOwner(owner, strandShare, ep.strandGen);
      epochs := epochs[epochId := ep.(sharesClaimed := ep.sharesClaimed + shares,
                                      assetsClaimed := ep.assetsClaimed + assets,
                                      usdgClaimed := ep.usdgClaimed + usdg,
                                      claimCount := ep.claimCount + 1,
                                      strandWadClaimed := ep.strandWadClaimed + strandShare)];
      PutTwice(old(epochs), epochId, ep, epochs[epochId]);
    }

    // The slot is zeroed and a non-zero share of the claim is staged against its owner.
    method UnqueueOwner(owner: Address, strandShare: nat, strandGen: Option<nat>)
      modifies this`users
      ensures var left := Get(old(users), owner, BARE_USER).(queuedShares := 0, queuedEpoch := None);
              users == old(users)[owner := if strandShare == 0 then left
                                           else left.(strandWad := left.strandWad + strandShare, strandGen := strandGen)]
    {
      var u := GetUser(owner);
      users := users[owner := u.(queuedShares := 0, queuedEpoch := None)];
      if strandShare != 0 {
        users := users[owner := users[owner].(strandWad := u.strandWad + strandShare, strandGen := strandGen)];
      }
    }

    method OnStrandShareSettled(tx: Hash, owner: Address, gen: nat, wad: nat, assets: nat, usdg: nat)
      modifies this`users, this`strands
      ensures users == UsersAfter(old(Rows()), StrandShareSettled(owner, gen, wad, assets, usdg))
      ensures strands == StrandsAfter(old(Rows()), tx, StrandShareSettled(owner, gen, wad, assets, usdg))
    {
      var u := GetUser(owner);
      users := users[owner := u.(strandWad := Sub(u.strandWad, wad),
                                 strandGen := if Sub(u.strandWad, wad) == 0 then None else u.strandGen)];
      if gen in strands {
        var s := strands[gen];
        strands := strands[gen := s.(wadLeft := Sub(s.wadLeft, wad), assetsLeft := Sub(s.assetsLeft, assets),
                                     usdgLeft := Sub(s.usdgLeft, usdg), settledCount := s.settledCount + 1)];
      }
    }

    method OnReserveHaircut(tx: Hash, owner: Address, booked: nat, paid: nat)
      modifies this`funds, this`users
      ensures funds == FundsAfter(old(Rows()), ReserveHaircut(owner, booked, paid))
      ensures users == UsersAfter(old(Rows()), ReserveHaircut(owner, booked, paid))
    {
      var shortfall := Sub(booked, paid);
      var u := GetUser(owner);
      users := users[owner := u.(haircutAssets := u.haircutAssets + shortfall)];
      funds := funds.(reservedAssets := Sub(funds.reservedAssets, shortfall),
                      lifetimeHaircutAssets := funds.lifetimeHaircutAssets + shortfall);
    }

    method OnUsdgLegDeferred(tx: Hash, owner: Address, usdg: nat)
      modifies this`users
      ensures users == UsersAfter(old(Rows()), UsdgLegDeferred(owner, usdg))
    {
      var u := GetUser(owner);
      users := users[owner := u.(deferredUsdg := usdg)];
    }

    method OnCompleteRedeem(tx: Hash, owner: Address, assets: nat, usdg: nat)
      modifies this`funds, this`users
      ensures funds == FundsAfter(old(Rows()), CompleteRedeem(owner, assets, usdg))
      ensures users == UsersAfter(old(Rows()), CompleteRedeem(owner, assets, usdg))
    {
      var u := GetUser(owner);
      users := users[owner := u.(redeemedAssets := u.redeemedAssets + assets, redeemedUsdg := u.redeemedUsdg + usdg)];
      if usdg > 0 {
        users := users[owner := users[owner].(deferredUsdg := 0)];
      }
      assert users == old(users)[owner := Paid(u, assets, usdg)];
      funds := funds.(reservedAssets := Sub(funds.reservedAssets, assets),
                      usdgReservedForQueue := Sub(funds.usdgReservedForQueue, usdg));
    }

    method OnClaimUsdg(tx: Hash, owner: Address, amount: nat)
      modifies this`funds, this`users
      ensures funds == FundsAfter(old(Rows()), ClaimUsdg(owner, amount))
      ensures users == UsersAfter(old(Rows()), ClaimUsdg(owner, amount))
    {
      var u := GetUser(owner);
      users := users[owner := u.(claimedUsdg := u.claimedUsdg + amount)];
      funds := funds.(totalUsdgClaimed := funds.totalUsdgClaimed + amount);
    }

    // ---------------------------------------------------------------- the phase machine

    method OnRollOpen(tx: Hash, cycleNumber: nat, optionId: nat, strikeUsdg: nat, window: WindowReads)
      modifies this`week, this`tally, this`book, this`cycles
      ensures week == WeekAfter(old(Rows()), tx, RollOpen(cycleNumber, optionId, strikeUsdg, window))
      ensures tally == TallyAfter(old(Rows()), tx, RollOpen(cycleNumber, optionId, strikeUsdg, window))
      ensures book == BookAfter(old(Rows()), tx, RollOpen(cycleNumber, optionId, strikeUsdg, window))
      ensures cycles == CyclesAfter(old(Rows()), tx, RollOpen(cycleNumber, optionId, strikeUsdg, window))
    {
      var exerciseTimestamp, expiryTimestamp := window.optionExercise, window.optionExpiry;
      if exerciseTimestamp == 0 {
        exerciseTimestamp := window.vaultExercise;
      }
      if expiryTimestamp == 0 {
        expiryTimestamp := window.vaultExpiry;
      }
      var terms := OptionTerms(strikeUsdg, exerciseTimestamp, expiryTimestamp);
      week := week.(phase := Phase.Listed, cycleNumber := cycleNumber, optionId := Some(optionId), claimKey := None,
                    contractsWritten := 0, lockedCollateral := 0, listingHash := None, terms := terms);
      book := book.(listingsThisCycle := 0);
      tally := tally.(cyclesWritten := tally.cyclesWritten + 1);
      var c := GetCycle(cycleNumber);
      cycles := cycles[cycleNumber := c.(status := CycleStatus.Listed, optionId := Some(optionId), terms := terms)];
    }

    method OnCallsWritten(tx: Hash, optionId: nat, claimKey: nat, contracts: nat, collateral: nat)
      modifies this`week, this`cycles
      ensures week == WeekAfter(old(Rows()), tx, CallsWritten(optionId, claimKey, contracts, collateral))
      ensures cycles == CyclesAfter(old(Rows()), tx, CallsWritten(optionId, claimKey, contracts, collateral))
    {
      week := week.(optionId := Some(optionId), claimKey := Some(claimKey),
                    contractsWritten := week.contractsWritten + contracts,
                    lockedCollateral := week.lockedCollateral + collateral);
      if week.cycleNumber != 0 {
        var c := GetCycle(week.cycleNumber);
        cycles := cycles[week.cycleNumber := c.(claimKey := Some(claimKey),
                                                contractsWritten := c.contractsWritten + contracts,
                                                collateral := c.collateral + collateral,
                                                writeCount := c.writeCount + 1)];
      }
    }

    method OnBookLocked(tx: Hash, cycleNumber: nat)
      modifies this`week, this`cycles, this`listings
      ensures week == WeekAfter(old(Rows()), tx, BookLocked(cycleNumber))
      ensures cycles == CyclesAfter(old(Rows()), tx, BookLocked(cycleNumber))
      ensures listings == ListingsAfter(old(Rows()), tx, BookLocked(cycleNumber))
    {
      RefineEndReason(tx, LockBook);
      week := week.(phase := Phase.Exercisable, listingHash := None);
      var c := GetCycle(cycleNumber);
    }

    method OnClaimStranded(tx: Hash, cycleNumber: nat, claimKey: nat, gen: nat)
      modifies this`week, this`tally, this`cycles, this`strands
      ensures week == WeekAfter(old(Rows()), tx, ClaimStranded(cycleNumber, claimKey, gen))
      ensures tally == TallyAfter(old(Rows()), tx, ClaimStranded(cycleNumber, claimKey, gen))
      ensures cycles == CyclesAfter(old(Rows()), tx, ClaimStranded(cycleNumber, claimKey, gen))
      ensures strands == StrandsAfter(old(Rows()), tx, ClaimStranded(cycleNumber, claimKey, gen))
    {
      week := week.(stranded := true, strandGen := gen, strandedRemainingWad := WAD, strandedCycleNumber := Some(cycleNumber));
      tally := tally.(cyclesStranded := tally.cyclesStranded + 1);
      if gen !in strands {
        strands := strands[gen := Strand(cycleNumber, claimKey, 0, 0, false, None, 0, 0, 0, 0, 0, 0, 0)];
      }
      var c := GetCycle(cycleNumber);
      cycles := cycles[cycleNumber := c.(stranded := true, strandGen := Some(gen))];
    }

    method OnRollClose(tx: Hash, cycleNumber: nat, assets: nat, usdg: nat, assignedCount: nat)
      modifies this`week, this`money, this`cycles, this`listings
      ensures week == WeekAfter(old(Rows()), tx, Log.RollClose(cycleNumber, assets, usdg, assignedCount))
      ensures money == MoneyAfter(old(Rows()), tx, Log.RollClose(cycleNumber, assets, usdg, assignedCount))
      ensures cycles == CyclesAfter(old(Rows()), tx, Log.RollClose(cycleNumber, assets, usdg, assignedCount))
      ensures listings == ListingsAfter(old(Rows()), tx, Log.RollClose(cycleNumber, assets, usdg, assignedCount))
    {
      RefineEndReason(tx, AtRollClose);
      CloseCycle(cycleNumber, assets, usdg, assignedCount);
      week := week.(phase := Phase.Settling,
                    lockedCollateral := if week.stranded then week.lockedCollateral else 0,
                    optionId := OptionIdAfterClose(week.stranded, week.optionId),
                    rollCloseTx := Some(tx));
      money := money.(lifetimeAssignmentUsdg := money.lifetimeAssignmentUsdg + usdg);
    }

    method CloseCycle(n: nat, assets: nat, usdg: nat, assignedCount: nat)
      modifies this`cycles
      ensures cycles == old(cycles)[n := Get(old(cycles), n, BARE_CYCLE).(
                assetsReturned := assets, assignmentUsdg := usdg, contractsAssigned := assignedCount)]
    {
      var c := GetCycle(n);
      cycles := cycles[n := c.(assetsReturned := assets, assignmentUsdg := usdg, contractsAssigned := assignedCount)];
    }

    method OnClaimRedeemed(tx: Hash, claimKey: nat, assets: nat, usdg: nat)
      modifies this`week, this`cycles
      ensures week == WeekAfter(old(Rows()), tx, ClaimRedeemed(claimKey, assets, usdg))
      ensures cycles == CyclesAfter(old(Rows()), tx, ClaimRedeemed(claimKey, assets, usdg))
    {
      week := week.(claimKey := None, optionId := None, contractsWritten := 0, lockedCollateral := 0);
      if week.stranded && week.strandedCycleNumber.Some? {
        var n := week.strandedCycleNumber.value;
        var c := GetCycle(n);
        cycles := cycles[n := c.(assetsReturned := assets, assignmentUsdg := usdg)];
      }
    }

    method OnStrandedClaimRecovered(tx: Hash, gen: nat, assets: nat, usdg: nat, queueWad: nat)
      modifies this`week, this`funds, this`money, this`cycles, this`strands
      ensures week == WeekAfter(old(Rows()), tx, StrandedClaimRecovered(gen, assets, usdg, queueWad))
      ensures funds == FundsAfter(old(Rows()), StrandedClaimRecovered(gen, assets, usdg, queueWad))
      ensures money == MoneyAfter(old(Rows()), tx, StrandedClaimRecovered(gen, assets, usdg, queueWad))
      ensures cycles == CyclesAfter(old(Rows()), tx, StrandedClaimRecovered(gen, assets, usdg, queueWad))
      ensures strands == StrandsAfter(old(Rows()), tx, StrandedClaimRecovered(gen, assets, usdg, queueWad))
    {
      hide RecoverStrand, Get;
      var split := RecoverStrand(assets, usdg, queueWad);
      var cycleNumber := week.strandedCycleNumber;
      week := week.(stranded := false, lastResolvedGen := gen, strandedRemainingWad := 0, strandedCycleNumber := None);
      funds := funds.(reservedAssets := funds.reservedAssets + split.queueAssets,
                      usdgReservedForQueue := funds.usdgReservedForQueue + split.queueUsdg);
      money := money.(lifetimeAssignmentUsdg := money.lifetimeAssignmentUsdg + usdg);
      if gen in strands {
        strands := strands[gen := strands[gen].(
          recovered := true, recoveredTx := Some(tx), assetsIn := assets, usdgIn := usdg, queueWad := queueWad,
          wadLeft := queueWad, assetsLeft := split.queueAssets, usdgLeft := split.queueUsdg)];
      }
      if cycleNumber.Some? {
        ResolveCycle(cycleNumber.value);
      }
    }

    // The stranded week's late verdict.
    method ResolveCycle(n: nat)
      modifies this`cycles
      ensures var c := Get(old(cycles), n, BARE_CYCLE); cycles == old(cycles)[n := c.(status := RecoveredStatus(c.contractsAssigned))]
    {
      var c := GetCycle(n);
      cycles := cycles[n := c.(status := RecoveredStatus(c.contractsAssigned))];
      PutTwice(old(cycles), n, c, cycles[n]);
    }

    // ---------------------------------------------------------------- the week's money

    method OnHarvest(tx: Hash, cycleNumber: nat, gross: nat, fee: nat, net: nat)
      modifies this`week, this`money, this`tally, this`cycles, this`harvests
      ensures week == WeekAfter(old(Rows()), tx, Log.Harvest(cycleNumber, gross, fee, net))
      ensures money == MoneyAfter(old(Rows()), tx, Log.Harvest(cycleNumber, gross, fee, net))
      ensures tally == TallyAfter(old(Rows()), tx, Log.Harvest(cycleNumber, gross, fee, net))
      ensures cycles == CyclesAfter(old(Rows()), tx, Log.Harvest(cycleNumber, gross, fee, net))
      ensures harvests == HarvestsAfter(old(Rows()), tx, Log.Harvest(cycleNumber, gross, fee, net))
    {
      hide Swept, SplitHarvest, OriginIn, FeeFree, HarvestEventOf;
      var origin, view, h := ReadHarvest(tx, cycleNumber, gross, fee, net);
      var terminal := origin == HarvestOrigin.RollClose;
      var filled := view.contractsWritten > 0;
      var split := SplitHarvest(h);
      harvests := harvests + [HarvestRow(cycleNumber, terminal, origin, filled, h, split,
                                         view.assignmentUsdg, view.contractsSold, view.contractsAssigned, money.accUsdgPerShare)];
      if cycleNumber != 0 {
        SweepCycle(cycleNumber, h, origin);
        PutTwice(old(cycles), cycleNumber, view, cycles[cycleNumber]);
        assert cycles == CyclesAfter(old(Rows()), tx, Log.Harvest(cycleNumber, gross, fee, net));
      }
      money := money.(lifetimeProtocolFee := money.lifetimeProtocolFee + fee,
                      lifetimePremiumNet := money.lifetimePremiumNet + split.premiumNet,
                      lifetimeStrikeProceeds := money.lifetimeStrikeProceeds + split.strikeProceeds,
                      lifetimeCreditedUsdg := money.lifetimeCreditedUsdg + net);
      if terminal {
        EndWeek(filled, view.contractsAssigned);
      }
    }

    // Back to Idle, with one more week counted.
    method EndWeek(filled: bool, contractsAssigned: nat)
      modifies this`week, this`tally
      ensures week == old(week).(phase := Phase.Idle)
      ensures var y := old(tally);
              tally == y.(cyclesFilled := y.cyclesFilled + if filled then 1 else 0,
                          cyclesUnfilled := y.cyclesUnfilled + if filled then 0 else 1,
                          cyclesAssigned := y.cyclesAssigned + if contractsAssigned > 0 then 1 else 0)
    {
      week := week.(phase := Phase.Idle);
      tally := tally.(cyclesFilled := tally.cyclesFilled + if filled then 1 else 0,
                      cyclesUnfilled := tally.cyclesUnfilled + if filled then 0 else 1,
                      cyclesAssigned := tally.cyclesAssigned + if contractsAssigned > 0 then 1 else 0);
    }

    // What the handler infers and reads before it writes: the origin, the cycle's figures (none for
    // cycle 0, whose row is never opened) and the event with its fee-free part.
    method ReadHarvest(tx: Hash, cycleNumber: nat, gross: nat, fee: nat, net: nat)
      returns (origin: HarvestOrigin, view: Cycle, h: HarvestEvent)
      modifies this`cycles
      ensures origin == OriginIn(old(Rows()), tx) && view == ViewOf(old(Rows()), cycleNumber)
      ensures h == HarvestEventOf(old(Rows()), tx, cycleNumber, gross, fee, net)
      ensures cycles == if cycleNumber == 0 then old(cycles) else old(cycles)[cycleNumber := view]
    {
      var last := LastStrand(strands, week.lastResolvedGen);
      origin := OriginOf(week.rollCloseTx, week.phase, if last.Some? then last.value.recoveredTx else None, tx);
      view := BARE_CYCLE;
      if cycleNumber != 0 {
        view := GetCycle(cycleNumber);
      }
      var feeFree: int := 0;
      if origin == HarvestOrigin.RollClose {
        feeFree := view.assignmentUsdg;
      } else if origin == HarvestOrigin.Retry && last.Some? {
        feeFree := RecoverStrand(last.value.assetsIn, last.value.usdgIn, last.value.queueWad).liveUsdg;
      }
      h := HarvestEvent(gross, fee, net, feeFree, supply.totalShares);
    }

    // Accumulated onto the week when it touches it; the terminal harvest also writes the verdict.
    method SweepCycle(n: nat, h: HarvestEvent, origin: HarvestOrigin)
      modifies this`cycles
      ensures cycles == old(cycles)[n := Swept(Get(old(cycles), n, BARE_CYCLE), h, origin, week.stranded)]
    {
      var c := GetCycle(n);
      var status := CloseStatus(week.stranded, c.contractsWritten, c.contractsAssigned);
      if HarvestTouchesCycle(true, c.harvested, origin) {
        cycles := cycles[n := c.(totals := AddHarvest(c.totals, h), supplyAtHarvest := h.supply)];
        if origin == HarvestOrigin.RollClose {
          cycles := cycles[n := cycles[n].(status := status, harvested := true)];
        }
      }
    }

    method OnUsdgDistributed(tx: Hash, amount: nat, accUsdgPerShare: nat)
      modifies this`money
      ensures money == MoneyAfter(old(Rows()), tx, UsdgDistributed(amount, accUsdgPerShare))
    {
      money := money.(accUsdgPerShare := accUsdgPerShare,
                      totalUsdgDistributed := money.totalUsdgDistributed + amount,
                      usdgUnallocated := 0);
    }

    method OnUsdgUnallocated(tx: Hash, total: nat)
      modifies this`money
      ensures money == MoneyAfter(old(Rows()), tx, UsdgUnallocated(total))
    {
      money := money.(usdgUnallocated := total);
    }

    // ---------------------------------------------------------------- listings

    method OnListingApproved(tx: Hash, orderHash: Hash, amount: nat, gross: nat, seq_: nat)
      modifies this`week, this`book, this`cycles, this`listings
      ensures week == WeekAfter(old(Rows()), tx, ListingApproved(orderHash, amount, gross, seq_))
      ensures book == BookAfter(old(Rows()), tx, ListingApproved(orderHash, amount, gross, seq_))
      ensures cycles == CyclesAfter(old(Rows()), tx, ListingApproved(orderHash, amount, gross, seq_))
      ensures listings == ListingsAfter(old(Rows()), tx, ListingApproved(orderHash, amount, gross, seq_))
    {
      var unitPrice := SafeDiv(gross, amount);
      if orderHash !in listings {
        listings := listings[orderHash := Listing(week.cycleNumber, seq_, amount, gross, unitPrice,
                                                  ListingStatus.Approved, 0, 0, 0, None)];
      }
      week := week.(listingHash := Some(orderHash));
      book := book.(listingsThisCycle := seq_);
      var c := GetCycle(week.cycleNumber);
      cycles := cycles[week.cycleNumber := c.(listingCount := seq_, orderHash := Some(orderHash), listedGrossUsdg := gross,
                                              listedUnitPriceUsdg := unitPrice, listedContracts := amount)];
    }

    method OnListingCancelled(tx: Hash, orderHash: Hash)
      modifies this`week, this`book, this`listings
      ensures week == WeekAfter(old(Rows()), tx, ListingCancelled(orderHash))
      ensures book == BookAfter(old(Rows()), tx, ListingCancelled(orderHash))
      ensures listings == ListingsAfter(old(Rows()), tx, ListingCancelled(orderHash))
    {
      if orderHash in listings && listings[orderHash].status != ListingStatus.Filled {
        var l := listings[orderHash];
        listings := listings[orderHash := l.(status := EndedListingStatus(l.contractsFilled), endReason := Some(ByCancel))];
      }
      week := week.(listingHash := None);
      book := book.(lastCancelledHash := Some(orderHash), lastCancelledTx := Some(tx));
    }

    method OnAllListingsInvalidated(tx: Hash, newCounter: nat)
      modifies this`week, this`book, this`listings
      ensures week == WeekAfter(old(Rows()), tx, AllListingsInvalidated(newCounter))
      ensures book == BookAfter(old(Rows()), tx, AllListingsInvalidated(newCounter))
      ensures listings == ListingsAfter(old(Rows()), tx, AllListingsInvalidated(newCounter))
    {
      RefineEndReason(tx, Counter);
      week := week.(listingHash := None);
      book := book.(seaportCounter := newCounter);
    }

    // The end reason of the listing cancelled earlier in this transaction, if it did not fill.
    method RefineEndReason(tx: Hash, reason: EndReason)
      modifies this`listings
      ensures listings ==
              if book.lastCancelledTx == Some(tx) && book.lastCancelledHash.Some? && book.lastCancelledHash.value in old(listings)
                 && old(listings)[book.lastCancelledHash.value].status != ListingStatus.Filled
              then old(listings)[book.lastCancelledHash.value := old(listings)[book.lastCancelledHash.value].(endReason := Some(reason))]
              else old(listings)
    {
      if book.lastCancelledHash == None || book.lastCancelledTx != Some(tx) {
        return;
      }
      var h := book.lastCancelledHash.value;
      if h !in listings || listings[h].status == ListingStatus.Filled {
        return;
      }
      listings := listings[h := listings[h].(endReason := Some(reason))];
    }

    // ---------------------------------------------------------------- Seaport

    method OnOrderFulfilled(tx: Hash, orderHash: Hash, offerer: Address, offer: seq<OfferItem>, consideration: seq<ConsiderationItem>)
      modifies this`money, this`cycles, this`listings
      ensures money == MoneyAfter(old(Rows()), tx, OrderFulfilled(orderHash, offerer, offer, consideration))
      ensures cycles == CyclesAfter(old(Rows()), tx, OrderFulfilled(orderHash, offerer, offer, consideration))
      ensures listings == ListingsAfter(old(Rows()), tx, OrderFulfilled(orderHash, offerer, offer, consideration))
    {
      if offerer != Vault {
        return;
      }
      hide Contracts, ToVault, Bought, Sold, Get, WeekAfter, TallyAfter, BookAfter;
      var contracts := CountContracts(offer);
      var toVault, elsewhere := SplitPayment(consideration);
      var cycleNumber := week.cycleNumber;
      if orderHash in listings {
        cycleNumber := listings[orderHash].cycleNumber;
        FillListing(orderHash, contracts, toVault);
      }
      if cycleNumber != 0 {
        SellCycle(cycleNumber, contracts, toVault);
      }
      money := money.(lifetimePremiumGross := money.lifetimePremiumGross + toVault);
    }

    method FillListing(orderHash: Hash, contracts: nat, toVault: nat)
      requires orderHash in listings
      modifies this`listings
      ensures listings == old(listings)[orderHash := Bought(old(listings)[orderHash], contracts, toVault)]
    {
      var l := listings[orderHash];
      var filledSoFar := l.contractsFilled + contracts;
      var complete := filledSoFar >= l.amount;
      listings := listings[orderHash := l.(
        contractsFilled := filledSoFar,
        proceedsUsdg := l.proceedsUsdg + toVault,
        fillCount := l.fillCount + 1,
        status := if complete then ListingStatus.Filled else ListingStatus.PartiallyFilled,
        endReason := if complete then Some(FilledUp) else l.endReason)];
    }

    method SellCycle(n: nat, contracts: nat, toVault: nat)
      modifies this`cycles
      ensures cycles == old(cycles)[n := Sold(Get(old(cycles), n, BARE_CYCLE), contracts, toVault)]
    {
      var c := GetCycle(n);
      var contractsSold := c.contractsSold + contracts;
      var premiumGross := c.premiumGross + toVault;
      cycles := cycles[n := c.(
        status := if c.status == CycleStatus.Listed then CycleStatus.Filled else c.status,
        contractsSold := contractsSold,
        premiumGross := premiumGross,
        fillUnitPriceUsdg := SafeDiv(premiumGross, contractsSold),
        fillCount := c.fillCount + 1)];
    }

    method OnOrderCancelled(tx: Hash, orderHash: Hash)
      modifies this`listings
      ensures listings == ListingsAfter(old(Rows()), tx, OrderCancelled(orderHash))
    {
      if orderHash !in listings || listings[orderHash].status == ListingStatus.Filled {
        return;
      }
      var l := listings[orderHash];
      listings := listings[orderHash := l.(
        status := if l.contractsFilled > 0 then ListingStatus.PartiallyFilled else ListingStatus.Cancelled,
        endReason := if l.endReason == None then Some(ByCancel) else l.endReason)];
    }

    method OnCounterIncremented(tx: Hash, newCounter: nat)
      modifies this`book
      ensures book == BookAfter(old(Rows()), tx, CounterIncremented(newCounter))
    {
      book := book.(seaportCounter := newCounter);
    }

    // ---------------------------------------------------------------- Valorem

    method OnOptionsWritten(tx: Hash, optionId: nat, claimId: nat)
      modifies this`week
      ensures week == WeekAfter(old(Rows()), tx, OptionsWritten(optionId, claimId))
    {
      week := week.(optionId := Some(optionId), claimKey := Some(claimId));
    }

    method OnBucketWrittenInto(tx: Hash, claimId: nat, bucketIndex: nat)
      modifies this`cycles
      ensures cycles == CyclesAfter(old(Rows()), tx, BucketWrittenInto(claimId, bucketIndex))
    {
      if week.claimKey != Some(claimId) || week.cycleNumber == 0 {
        return;
      }
      var c := GetCycle(week.cycleNumber);
      if c.bucketIndex == None {
        cycles := cycles[week.cycleNumber := c.(bucketIndex := Some(bucketIndex))];
      }
    }

    method OnBucketAssignedExercise(tx: Hash, optionId: nat, bucketIndex: nat, amount: nat)
      modifies this`cycles
      ensures cycles == CyclesAfter(old(Rows()), tx, BucketAssignedExercise(optionId, bucketIndex, amount))
    {
      if week.optionId != Some(optionId) || week.cycleNumber == 0 {
        return;
      }
      var c := GetCycle(week.cycleNumber);
      if c.bucketIndex != Some(bucketIndex) {
        return;
      }
      cycles := cycles[week.cycleNumber := c.(bucketAssigned := c.bucketAssigned + amount)];
    }

    method OnClearClaimRedeemed(tx: Hash, assets: nat, usdg: nat)
      modifies this`cycles
      ensures cycles == CyclesAfter(old(Rows()), tx, ClearClaimRedeemed(assets, usdg))
    {
      var cycleNumber := if week.stranded then week.strandedCycleNumber else Some(week.cycleNumber);
      if cycleNumber == None || cycleNumber == Some(0) {
        return;
      }
      var c := GetCycle(cycleNumber.value);
      cycles := cycles[cycleNumber.value := c.(assetsReturned := assets, assignmentUsdg := usdg)];
    }

    // ---------------------------------------------------------------- the tape as a whole

    method Apply(tx: Hash, log: Log)
      modifies this
      ensures Rows() == Reduce(old(Rows()), tx, log)
    {
      if OfWeek(log) {
        ApplyToWeek(tx, log);
      } else if OfVenues(log) {
        ApplyToVenues(tx, log);
      } else if OfQueue(log) {
        ApplyToQueue(tx, log);
      } else {
        ApplyToShares(tx, log);
      }
    }

    method ApplyToShares(tx: Hash, log: Log)
      requires !OfWeek(log) && !OfVenues(log) && !OfQueue(log)
      modifies this
      ensures Rows() == Reduce(old(Rows()), tx, log)
    {
      hide WeekAfter, FundsAfter, SupplyAfter, MoneyAfter, TallyAfter, BookAfter;
      hide UsersAfter, CyclesAfter, ListingsAfter, EpochsAfter, StrandsAfter, HarvestsAfter, Reduce;
      ghost var was := Rows();
      match log
      case AssetIn(amount) =>
        OnAssetIn(tx, amount);
        OnlyFunds(was, tx, log);
      case AssetOut(amount) =>
        OnAssetOut(tx, amount);
        OnlyFunds(was, tx, log);
      case UsdgIn(amount) =>
        OnUsdgIn(tx, amount);
        OnlyFunds(was, tx, log);
      case UsdgOut(amount) =>
        OnUsdgOut(tx, amount);
        OnlyFunds(was, tx, log);
      case Transfer(from, to, value) =>
        OnTransfer(tx, from, to, value);
        OnlySupplyUsers(was, tx, log);
      case Deposit(owner, assets) =>
        OnDeposit(tx, owner, assets);
        OnlyUsers(was, tx, log);
      case Withdraw(owner, assets) =>
        OnWithdraw(tx, owner, assets);
        OnlyUsers(was, tx, log);
    }

    method ApplyToQueue(tx: Hash, log: Log)
      requires OfQueue(log)
      modifies this
      ensures Rows() == Reduce(old(Rows()), tx, log)
    {
      hide WeekAfter, FundsAfter, SupplyAfter, MoneyAfter, TallyAfter, BookAfter;
      hide UsersAfter, CyclesAfter, ListingsAfter, EpochsAfter, StrandsAfter, HarvestsAfter, Reduce;
      ghost var was := Rows();
      match log
      case QueueRedeem(owner, shares, epochId) =>
        OnQueueRedeem(tx, owner, shares, epochId);
        OnlySupplyUsersEpochs(was, tx, log);
      case EpochStrandShare(epochId, gen, wad) =>
        OnEpochStrandShare(tx, epochId, gen, wad);
        OnlyWeekEpochsStrands(was, tx, log);
      case QueueSettled(epochId, shares, assets, usdg) =>
        OnQueueSettled(tx, epochId, shares, assets, usdg);
        OnlyFundsSupplyEpochs(was, tx, log);
      case QueueEntrySettled(owner, epochId, shares, assets, usdg) =>
        OnQueueEntrySettled(tx, owner, epochId, shares, assets, usdg);
        OnlyUsersEpochs(was, tx, log);
      case StrandShareSettled(owner, gen, wad, assets, usdg) =>
        OnStrandShareSettled(tx, owner, gen, wad, assets, usdg);
        OnlyUsersStrands(was, tx, log);
      case ReserveHaircut(owner, booked, paid) =>
        OnReserveHaircut(tx, owner, booked, paid);
        OnlyFundsUsers(was, tx, log);
      case UsdgLegDeferred(owner, usdg) =>
        OnUsdgLegDeferred(tx, owner, usdg);
        OnlyUsers(was, tx, log);
      case CompleteRedeem(owner, assets, usdg) =>
        OnCompleteRedeem(tx, owner, assets, usdg);
        OnlyFundsUsers(was, tx, log);
      case ClaimUsdg(owner, amount) =>
        OnClaimUsdg(tx, owner, amount);
        OnlyFundsUsers(was, tx, log);
    }

    method ApplyToWeek(tx: Hash, log: Log)
      requires OfWeek(log)
      modifies this
      ensures Rows() == Reduce(old(Rows()), tx, log)
    {
      hide WeekAfter, FundsAfter, SupplyAfter, MoneyAfter, TallyAfter, BookAfter;
      hide UsersAfter, CyclesAfter, ListingsAfter, EpochsAfter, StrandsAfter, HarvestsAfter, Reduce;
      ghost var was := Rows();
      match log
      case RollOpen(cycleNumber, optionId, strikeUsdg, window) =>
        OnRollOpen(tx, cycleNumber, optionId, strikeUsdg, window);
        OnlyWeekTallyBookCycles(was, tx, log);
      case CallsWritten(optionId, claimKey, contracts, collateral) =>
        OnCallsWritten(tx, optionId, claimKey, contracts, collateral);
        OnlyWeekCycles(was, tx, log);
      case BookLocked(cycleNumber) =>
        OnBookLocked(tx, cycleNumber);
        OnlyWeekCyclesListings(was, tx, log);
      case ClaimStranded(cycleNumber, claimKey, gen) =>
        OnClaimStranded(tx, cycleNumber, claimKey, gen);
        OnlyWeekTallyCyclesStrands(was, tx, log);
      case RollClose(cycleNumber, assets, usdg, assignedCount) =>
        OnRollClose(tx, cycleNumber, assets, usdg, assignedCount);
        OnlyWeekMoneyCyclesListings(was, tx, log);
      case ClaimRedeemed(claimKey, assets, usdg) =>
        OnClaimRedeemed(tx, claimKey, assets, usdg);
        OnlyWeekCycles(was, tx, log);
      case StrandedClaimRecovered(gen, assets, usdg, queueWad) =>
        OnStrandedClaimRecovered(tx, gen, assets, usdg, queueWad);
        OnlyWeekFundsMoneyCyclesStrands(was, tx, log);
      case Harvest(cycleNumber, gross, fee, net) =>
        OnHarvest(tx, cycleNumber, gross, fee, net);
        OnlyWeekMoneyTallyCyclesHarvests(was, tx, log);
      case UsdgDistributed(amount, accUsdgPerShare) =>
        OnUsdgDistributed(tx, amount, accUsdgPerShare);
        OnlyMoney(was, tx, log);
      case UsdgUnallocated(total) =>
        OnUsdgUnallocated(tx, total);
        OnlyMoney(was, tx, log);
    }

    method ApplyToVenues(tx: Hash, log: Log)
      requires OfVenues(log)
      modifies this
      ensures Rows() == Reduce(old(Rows()), tx, log)
    {
      hide WeekAfter, FundsAfter, SupplyAfter, MoneyAfter, TallyAfter, BookAfter;
      hide UsersAfter, CyclesAfter, ListingsAfter, EpochsAfter, StrandsAfter, HarvestsAfter, Reduce;
      ghost var was := Rows();
      match log
      case ListingApproved(orderHash, amount, gross, seq_) =>
        OnListingApproved(tx, orderHash, amount, gross, seq_);
        OnlyWeekBookCyclesListings(was, tx, log);
      case ListingCancelled(orderHash) =>
        OnListingCancelled(tx, orderHash);
        OnlyWeekBookListings(was, tx, log);
      case AllListingsInvalidated(newCounter) =>
        OnAllListingsInvalidated(tx, newCounter);
        OnlyWeekBookListings(was, tx, log);
      case OrderFulfilled(orderHash, offerer, offer, consideration) =>
        OnOrderFulfilled(tx, orderHash, offerer, offer, consideration);
        OnlyMoneyCyclesListings(was, tx, log);
      case OrderCancelled(orderHash) =>
        OnOrderCancelled(tx, orderHash);
        OnlyListings(was, tx, log);
      case CounterIncremented(newCounter) =>
        OnCounterIncremented(tx, newCounter);
        OnlyBook(was, tx, log);
      case OptionsWritten(optionId, claimId) =>
        OnOptionsWritten(tx, optionId, claimId);
        OnlyWeek(was, tx, log);
      case BucketWrittenInto(claimId, bucketIndex) =>
        OnBucketWrittenInto(tx, claimId, bucketIndex);
        OnlyCycles(was, tx, log);
      case BucketAssignedExercise(optionId, bucketIndex, amount) =>
        OnBucketAssignedExercise(tx, optionId, bucketIndex, amount);
        OnlyCycles(was, tx, log);
      case ClearClaimRedeemed(assets, usdg) =>
        OnClearClaimRedeemed(tx, assets, usdg);
        OnlyCycles(was, tx, log);
    }
  }

  // ---------------------------------------------------------------- the item loops of a fill

  method CountContracts(offer: seq<OfferItem>) returns (contracts: nat)
    ensures contracts == Contracts(offer) == Added(offer, CallsSold())
  {
    ContractsAreItems(offer);
    contracts := 0;
    for i := 0 to |offer|
      invariant contracts == Contracts(offer[..i])
    {
      if offer[i].itemType == ITEM_ERC1155 && offer[i].token == Clearinghouse {
        contracts := contracts + offer[i].amount;
      }
      assert offer[..i + 1][..i] == offer[..i];
    }
    assert offer[..|offer|] == offer;
  }

  // Everything the consideration pays in USDG, to anybody.
  function UsdgPaid(consideration: seq<ConsiderationItem>): nat {
    if consideration == [] then 0
    else
      var item := consideration[|consideration| - 1];
      UsdgPaid(consideration[..|consideration| - 1]) + if item.itemType == ITEM_ERC20 && item.token == Usdg then item.amount else 0
  }

  method SplitPayment(consideration: seq<ConsiderationItem>) returns (toVault: nat, elsewhere: nat)
    ensures toVault == ToVault(consideration) && toVault + elsewhere == UsdgPaid(consideration)
    ensures toVault == Added(consideration, UsdgToVault()) && elsewhere == Added(consideration, UsdgToOthers())
  {
    PaymentIsItems(consideration);
    toVault, elsewhere := 0, 0;
    for i := 0 to |consideration|
      invariant toVault == ToVault(consideration[..i]) && toVault + elsewhere == UsdgPaid(consideration[..i])
      invariant elsewhere == Added(consideration[..i], UsdgToOthers())
    {
      var item := consideration[i];
      if item.itemType == ITEM_ERC20 && item.token == Usdg {
        if item.recipient == Vault {
          toVault := toVault + item.amount;
        } else {
          elsewhere := elsewhere + item.amount;
        }
      }
      assert consideration[..i + 1][..i] == consideration[..i];
    }
    assert consideration[..|consideration|] == consideration;
  }
}
