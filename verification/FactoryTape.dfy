// The factory market's index as an object: one method per handler of indexer/src/factory.ts and
// indexer/src/writerAccount.ts, each proved to leave exactly the tables FactoryReducers.dfy specifies
// and to touch no other.
module FactoryTape {
  import opened Common
  import opened FactoryLifecycle
  import opened FactoryReducers

  class MarketIndex {
    var market: Market
    var accounts: map<nat, WriterAccount>
    var weeks: map<nat, Week>
    var fills: map<EventId, FillRow>
    var settlements: map<EventId, SettlementRow>

    function Rows(): MarketDb
      reads this
    {
      MarketDb(market, accounts, weeks, fills, settlements)
    }

    constructor ()
      ensures Rows() == EMPTY_MARKET
    {
      market := NEW_MARKET;
      accounts, weeks, fills, settlements := map[], map[], map[], map[];
    }

    method GetAccount(account: nat) returns (a: WriterAccount)
      modifies this`accounts
      ensures a == Get(old(accounts), account, BARE_ACCOUNT) && accounts == old(accounts)[account := a]
    {
      if account !in accounts {
        accounts := accounts[account := BARE_ACCOUNT];
      }
      a := accounts[account];
    }

    // A no-op, not an error, on a week nobody set.
    method PatchWeek(weekId: nat, values: Week)
      modifies this`weeks
      ensures weeks == if weekId in old(weeks) then old(weeks)[weekId := values] else old(weeks)
    {
      if weekId in weeks {
        weeks := weeks[weekId := values];
      }
    }

    // ---------------------------------------------------------------- the factory's own events

    method OnAccountCreated(owner: nat, account: nat, index: nat)
      modifies this`accounts, this`market
      ensures accounts == AccountsAfter(old(Rows()), AccountCreated(owner, account, index))
      ensures market == MarketAfter(old(Rows()), AccountCreated(owner, account, index))
    {
      if account in accounts {
        accounts := accounts[account := accounts[account].(owner := owner, index := index)];
      } else {
        accounts := accounts[account := BARE_ACCOUNT.(owner := owner, index := index)];
      }
      market := market.(accountCount := market.accountCount + 1);
    }

    method OnAccountRekeyed(account: nat, newOwner: nat)
      modifies this`accounts
      ensures accounts == AccountsAfter(old(Rows()), AccountRekeyed(account, newOwner))
    {
      if account !in accounts {
        return;
      }
      accounts := accounts[account := accounts[account].(owner := newOwner)];
    }

    method OnWeekSet(weekId: nat, terms: WeekTerms)
      modifies this`weeks, this`market
      ensures weeks == WeeksAfter(old(Rows()), WeekSet(weekId, terms))
      ensures market == MarketAfter(old(Rows()), WeekSet(weekId, terms))
    {
      if weekId !in weeks {
        weeks := weeks[weekId := NewWeek(terms)];
      }
      market := market.(weekId := weekId, terms := terms);
    }

    // ---------------------------------------------------------------- the clones' events

    method OnDeposited(account: nat, assets: nat)
      modifies this`accounts
      ensures accounts == AccountsAfter(old(Rows()), Deposited(account, assets))
    {
      var a := GetAccount(account);
      accounts := accounts[account := a.(depositedTotal := a.depositedTotal + assets)];
    }

    method OnWithdrawn(account: nat, assets: nat)
      modifies this`accounts
      ensures accounts == AccountsAfter(old(Rows()), Withdrawn(account, assets))
    {
      var a := GetAccount(account);
      accounts := accounts[account := a.(withdrawnTotal := a.withdrawnTotal + assets)];
    }

    method OnWriteRequested(account: nat, lots: nat)
      modifies this`accounts, this`market
      ensures accounts == AccountsAfter(old(Rows()), WriteRequested(account, lots))
      ensures market == MarketAfter(old(Rows()), WriteRequested(account, lots))
    {
      var before := GetAccount(account);
      var after := before.(status := StatusAfterRequest(lots), requestedLots := lots);
      accounts := accounts[account := after];
      market := market.(pendingLots := PendingLotsAfter(market.pendingLots, before, after));
    }

    method OnLotsListed(account: nat, weekId: nat, optionId: nat, lots: nat, askUsdg: nat)
      modifies this`accounts, this`weeks, this`market
      ensures accounts == AccountsAfter(old(Rows()), LotsListed(account, weekId, optionId, lots, askUsdg))
      ensures weeks == WeeksAfter(old(Rows()), LotsListed(account, weekId, optionId, lots, askUsdg))
      ensures market == MarketAfter(old(Rows()), LotsListed(account, weekId, optionId, lots, askUsdg))
    {
      var before := GetAccount(account);
      var after := before.(status := AccountStatus.Listed, listedLots := lots, filledLots := 0, listedWeekId := Some(weekId),
                           optionId := Some(optionId), listedAskUsdg := askUsdg, lotsListed := before.lotsListed + lots);
      accounts := accounts[account := after];
      if weekId in weeks {
        PatchWeek(weekId, WeekAfterListing(weeks[weekId], lots));
      }
      market := market.(pendingLots := PendingLotsAfter(market.pendingLots, before, after), lotsListed := market.lotsListed + lots);
    }

    method OnLotFilled(id: EventId, account: nat, orderHash: Hash, optionId: nat, premiumUsdg: nat)
      modifies this`accounts, this`weeks, this`market, this`fills
      ensures accounts == AccountsAfter(old(Rows()), LotFilled(account, orderHash, optionId, premiumUsdg))
      ensures weeks == WeeksAfter(old(Rows()), LotFilled(account, orderHash, optionId, premiumUsdg))
      ensures market == MarketAfter(old(Rows()), LotFilled(account, orderHash, optionId, premiumUsdg))
      ensures fills == FillsAfter(old(Rows()), id, LotFilled(account, orderHash, optionId, premiumUsdg))
    {
      var a := GetAccount(account);
      if id !in fills {
        fills := fills[id := FillRow(account, a.owner, a.listedWeekId, optionId, orderHash, premiumUsdg)];
      }
      accounts := accounts[account := a.(filledLots := a.filledLots + 1, lotsFilled := a.lotsFilled + 1,
                                         premiumUsdg := a.premiumUsdg + premiumUsdg)];
      if a.listedWeekId.Some? && a.listedWeekId.value in weeks {
        PatchWeek(a.listedWeekId.value, WeekAfterFill(weeks[a.listedWeekId.value], premiumUsdg));
      }
      market := market.(lotsFilled := market.lotsFilled + 1, premiumUsdg := market.premiumUsdg + premiumUsdg);
    }

    // The settlement row needs this listing's fills, so it is written before the reset.
    method OnSettled(id: EventId, account: nat, assets: nat, strikeUsdg: nat)
      modifies this`accounts, this`weeks, this`market, this`settlements
      ensures accounts == AccountsAfter(old(Rows()), MarketLog.Settled(account, assets, strikeUsdg))
      ensures weeks == WeeksAfter(old(Rows()), MarketLog.Settled(account, assets, strikeUsdg))
      ensures market == MarketAfter(old(Rows()), MarketLog.Settled(account, assets, strikeUsdg))
      ensures settlements == SettlementsAfter(old(Rows()), id, MarketLog.Settled(account, assets, strikeUsdg))
    {
      var before := GetAccount(account);
      var outcome := SettlementOutcome(before.filledLots, assets, strikeUsdg);
      if id !in settlements {
        settlements := settlements[id := SettlementRow(account, before.owner, before.listedWeekId, before.listedLots,
                                                       before.filledLots, assets, strikeUsdg, outcome)];
      }
      var after := AccountAfterSettled(before, outcome).(settlements := before.settlements + 1);
      accounts := accounts[account := after];
      if before.listedWeekId.Some? && before.listedWeekId.value in weeks {
        PatchWeek(before.listedWeekId.value, WeekAfterSettlement(weeks[before.listedWeekId.value], assets, strikeUsdg));
      }
      market := market.(pendingLots := PendingLotsAfter(market.pendingLots, before, after),
                        settlements := market.settlements + 1,
                        assetReturned := market.assetReturned + assets,
                        assignedUsdg := market.assignedUsdg + strikeUsdg);
    }

    method OnUsdgClaimed(account: nat, amount: nat)
      modifies this`accounts, this`market
      ensures accounts == AccountsAfter(old(Rows()), UsdgClaimed(account, amount))
      ensures market == MarketAfter(old(Rows()), UsdgClaimed(account, amount))
    {
      var a := GetAccount(account);
      accounts := accounts[account := a.(claimedUsdg := a.claimedUsdg + amount)];
      market := market.(claimedUsdg := market.claimedUsdg + amount);
    }

    method OnOwnershipTransferred(account: nat, newOwner: nat)
      modifies this`accounts
      ensures accounts == AccountsAfter(old(Rows()), OwnershipTransferred(account, newOwner))
    {
      var a := GetAccount(account);
      accounts := accounts[account := a.(owner := newOwner)];
    }

    // ---------------------------------------------------------------- the tape as a whole

    method Apply(id: EventId, log: MarketLog)
      modifies this
      ensures Rows() == ReduceMarket(old(Rows()), id, log)
    {
      match log
      case AccountCreated(owner, account, index) => OnAccountCreated(owner, account, index);
      case AccountRekeyed(account, newOwner) => OnAccountRekeyed(account, newOwner);
      case WeekSet(weekId, terms) => OnWeekSet(weekId, terms);
      case Deposited(account, assets) => OnDeposited(account, assets);
      case Withdrawn(account, assets) => OnWithdrawn(account, assets);
      case WriteRequested(account, lots) => OnWriteRequested(account, lots);
      case LotsListed(account, weekId, optionId, lots, askUsdg) => OnLotsListed(account, weekId, optionId, lots, askUsdg);
      case LotFilled(account, orderHash, optionId, premiumUsdg) => OnLotFilled(id, account, orderHash, optionId, premiumUsdg);
      case Settled(account, assets, strikeUsdg) => OnSettled(id, account, assets, strikeUsdg);
      case UsdgClaimed(account, amount) => OnUsdgClaimed(account, amount);
      case OwnershipTransferred(account, newOwner) => OnOwnershipTransferred(account, newOwner);
    }
  }
}
