// The specification of the factory market's index: what each log makes of each table.
module FactoryReducers {
  import opened Common
  import opened FactoryLifecycle

  datatype MarketLog =
    // indexer/src/factory.ts
    | AccountCreated(owner: nat, account: nat, index: nat)
    | AccountRekeyed(account: nat, newOwner: nat)
    | WeekSet(weekId: nat, terms: WeekTerms)
    // indexer/src/writerAccount.ts
    | Deposited(account: nat, assets: nat)
    | Withdrawn(account: nat, assets: nat)
    | WriteRequested(account: nat, lots: nat)
    | LotsListed(account: nat, weekId: nat, optionId: nat, lots: nat, askUsdg: nat)
    | LotFilled(account: nat, orderHash: Hash, optionId: nat, premiumUsdg: nat)
    | Settled(account: nat, assets: nat, strikeUsdg: nat)
    | UsdgClaimed(account: nat, amount: nat)
    | OwnershipTransferred(account: nat, newOwner: nat)

  datatype MarketDb = MarketDb(
    market: Market,
    accounts: map<nat, WriterAccount>,
    weeks: map<nat, Week>,
    fills: map<EventId, FillRow>,
    settlements: map<EventId, SettlementRow>)

  const EMPTY_MARKET := MarketDb(NEW_MARKET, map[], map[], map[], map[])

  function AccountOf(t: MarketDb, account: nat): WriterAccount { Get(t.accounts, account, BARE_ACCOUNT) }

  // ---------------------------------------------------------------- accounts

  // Only a rekey leaves an unknown account without a row.
  function AccountTouched(t: MarketDb, log: MarketLog): Option<nat> {
    match log
    case WeekSet(_, _) => None
    case AccountRekeyed(account, _) => if account in t.accounts then Some(account) else None
    case _ => Some(log.account)
  }

  function AccountAfter(a: WriterAccount, log: MarketLog): WriterAccount {
    match log
    case AccountCreated(owner, _, index) => a.(owner := owner, index := index)
    case AccountRekeyed(_, newOwner) => a.(owner := newOwner)
    case WeekSet(_, _) => a
    case Deposited(_, assets) => a.(depositedTotal := a.depositedTotal + assets)
    case Withdrawn(_, assets) => a.(withdrawnTotal := a.withdrawnTotal + assets)
    case WriteRequested(_, lots) => a.(status := StatusAfterRequest(lots), requestedLots := lots)
    case LotsListed(_, weekId, optionId, lots, askUsdg) =>
      a.(status := AccountStatus.Listed, listedLots := lots, filledLots := 0, listedWeekId := Some(weekId),
         optionId := Some(optionId), listedAskUsdg := askUsdg, lotsListed := a.lotsListed + lots)
    case LotFilled(_, _, _, premiumUsdg) =>
      a.(filledLots := a.filledLots + 1, lotsFilled := a.lotsFilled + 1, premiumUsdg := a.premiumUsdg + premiumUsdg)
    case Settled(_, assets, strikeUsdg) =>
      AccountAfterSettled(a, SettlementOutcome(a.filledLots, assets, strikeUsdg)).(settlements := a.settlements + 1)
    case UsdgClaimed(_, amount) => a.(claimedUsdg := a.claimedUsdg + amount)
    case OwnershipTransferred(_, newOwner) => a.(owner := newOwner)
  }

  function AccountsAfter(t: MarketDb, log: MarketLog): map<nat, WriterAccount> {
    match AccountTouched(t, log)
    case None => t.accounts
    case Some(account) => t.accounts[account := AccountAfter(AccountOf(t, account), log)]
  }

  // ---------------------------------------------------------------- weeks

  // The existing week row a log adds to: patching a week nobody set is a no-op.
  function WeekTouched(t: MarketDb, log: MarketLog): Option<nat> {
    var named :=
      match log
      case LotsListed(_, weekId, _, _, _) => Some(weekId)
      case LotFilled(account, _, _, _) => AccountOf(t, account).listedWeekId
      case Settled(account, _, _) => AccountOf(t, account).listedWeekId
      case _ => None;
    if named.Some? && named.value in t.weeks then named else None
  }

  function WeekAfter(w: Week, log: MarketLog): Week {
    match log
    case LotsListed(_, _, _, lots, _) => WeekAfterListing(w, lots)
    case LotFilled(_, _, _, premiumUsdg) => WeekAfterFill(w, premiumUsdg)
    case Settled(_, assets, strikeUsdg) => WeekAfterSettlement(w, assets, strikeUsdg)
    case _ => w
  }

  function NewWeek(terms: WeekTerms): Week { Week(terms, 0, 0, 0, 0, 0, 0, 0) }

  function WeeksAfter(t: MarketDb, log: MarketLog): map<nat, Week> {
    if log.WeekSet? then if log.weekId in t.weeks then t.weeks else t.weeks[log.weekId := NewWeek(log.terms)]
    else
      match WeekTouched(t, log)
      case None => t.weeks
      case Some(weekId) => t.weeks[weekId := WeekAfter(t.weeks[weekId], log)]
  }

  // ---------------------------------------------------------------- the market row

  function PendingAfter(t: MarketDb, log: MarketLog): nat {
    match log
    case WriteRequested(account, _) => PendingLotsAfter(t.market.pendingLots, AccountOf(t, account), AccountAfter(AccountOf(t, account), log))
    case LotsListed(account, _, _, _, _) => PendingLotsAfter(t.market.pendingLots, AccountOf(t, account), AccountAfter(AccountOf(t, account), log))
    case Settled(account, _, _) => PendingLotsAfter(t.market.pendingLots, AccountOf(t, account), AccountAfter(AccountOf(t, account), log))
    case _ => t.market.pendingLots
  }

  function MarketAfter(t: MarketDb, log: MarketLog): Market {
    var m := t.market.(pendingLots := PendingAfter(t, log));
    match log
    case AccountCreated(_, _, _) => m.(accountCount := m.accountCount + 1)
    case WeekSet(weekId, terms) => m.(weekId := weekId, terms := terms)
    case LotsListed(_, _, _, lots, _) => m.(lotsListed := m.lotsListed + lots)
    case LotFilled(_, _, _, premiumUsdg) => m.(lotsFilled := m.lotsFilled + 1, premiumUsdg := m.premiumUsdg + premiumUsdg)
    case Settled(_, assets, strikeUsdg) =>
      m.(settlements := m.settlements + 1, assetReturned := m.assetReturned + assets, assignedUsdg := m.assignedUsdg + strikeUsdg)
    case UsdgClaimed(_, amount) => m.(claimedUsdg := m.claimedUsdg + amount)
    case _ => m
  }

  // ---------------------------------------------------------------- append-only rows

  function FillOf(t: MarketDb, log: MarketLog): FillRow
    requires log.LotFilled?
  {
    var a := AccountOf(t, log.account);
    FillRow(log.account, a.owner, a.listedWeekId, log.optionId, log.orderHash, log.premiumUsdg)
  }

  function FillsAfter(t: MarketDb, id: EventId, log: MarketLog): map<EventId, FillRow> {
    if !log.LotFilled? || id in t.fills then t.fills else t.fills[id := FillOf(t, log)]
  }

  function SettlementOf(t: MarketDb, log: MarketLog): SettlementRow
    requires log.Settled?
  {
    var a := AccountOf(t, log.account);
    SettlementRow(log.account, a.owner, a.listedWeekId, a.listedLots, a.filledLots, log.assets, log.strikeUsdg,
                  SettlementOutcome(a.filledLots, log.assets, log.strikeUsdg))
  }

  function SettlementsAfter(t: MarketDb, id: EventId, log: MarketLog): map<EventId, SettlementRow> {
    if !log.Settled? || id in t.settlements then t.settlements else t.settlements[id := SettlementOf(t, log)]
  }

  function ReduceMarket(t: MarketDb, id: EventId, log: MarketLog): MarketDb {
    MarketDb(MarketAfter(t, log), AccountsAfter(t, log), WeeksAfter(t, log), FillsAfter(t, id, log), SettlementsAfter(t, id, log))
  }
}
