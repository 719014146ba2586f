// The market row against the rows it summarises, for ANY sequence of logs from an empty database,
// legal or not, bare rows and missed weeks included.
module MarketLedger {
  import opened Common
  import opened Sums
  import opened FactoryLifecycle
  import opened FactoryReducers

  datatype MarketEvent = MarketEvent(id: EventId, log: MarketLog)

  function MarketTape(run: seq<MarketEvent>): MarketDb {
    if run == [] then EMPTY_MARKET
    else var last := run[|run| - 1]; ReduceMarket(MarketTape(run[..|run| - 1]), last.id, last.log)
  }

  // ---------------------------------------------------------------- the market against its accounts

  function PendingOf(): WriterAccount -> int { (a: WriterAccount) => PendingContribution(a) }

  function ListedEver(): WriterAccount -> int { (a: WriterAccount) => a.lotsListed }

  function FilledEver(): WriterAccount -> int { (a: WriterAccount) => a.lotsFilled }

  function PremiumEver(): WriterAccount -> int { (a: WriterAccount) => a.premiumUsdg }

  function SettledTimes(): WriterAccount -> int { (a: WriterAccount) => a.settlements }

  function ClaimedEver(): WriterAccount -> int { (a: WriterAccount) => a.claimedUsdg }

  ghost predicate AccountTotals(m: Market, accounts: map<nat, WriterAccount>) {
    && m.pendingLots == Sum(accounts, PendingOf())
    && m.lotsListed == Sum(accounts, ListedEver())
    && m.lotsFilled == Sum(accounts, FilledEver())
    && m.premiumUsdg == Sum(accounts, PremiumEver())
    && m.settlements == Sum(accounts, SettledTimes())
    && m.claimedUsdg == Sum(accounts, ClaimedEver())
  }

  // One account never contributes more than the market counts.
  lemma ContributionFits(t: MarketDb, account: nat)
    requires AccountTotals(t.market, t.accounts)
    ensures PendingContribution(AccountOf(t, account)) <= t.market.pendingLots
  {
    SumNonNegative(t.accounts, PendingOf());
    if account in t.accounts {
      SumAtLeast(t.accounts, account, PendingOf());
    }
  }

  // So the floor in the running sum never changes it.
  lemma FloorNeverBinds(t: MarketDb, account: nat, after: WriterAccount)
    requires AccountTotals(t.market, t.accounts)
    ensures PendingLotsAfter(t.market.pendingLots, AccountOf(t, account), after)
         == t.market.pendingLots - PendingContribution(AccountOf(t, account)) + PendingContribution(after)
  {
    ContributionFits(t, account);
  }

  lemma AccountPut(t: MarketDb, account: nat, a: WriterAccount, column: WriterAccount -> int)
    requires column(BARE_ACCOUNT) == 0
    ensures Sum(t.accounts[account := a], column) == Sum(t.accounts, column) - column(AccountOf(t, account)) + column(a)
  {
    SumPut(t.accounts, account, a, BARE_ACCOUNT, column);
  }

  // What a log does to an account's columns it does to the market's.
  lemma MarketFollowsAccount(t: MarketDb, log: MarketLog)
    requires AccountTotals(t.market, t.accounts) && AccountTouched(t, log).Some?
    ensures var before := AccountOf(t, AccountTouched(t, log).value);
            var after, m, n := AccountAfter(before, log), t.market, MarketAfter(t, log);
            && n.pendingLots - m.pendingLots == PendingContribution(after) - PendingContribution(before)
            && n.lotsListed - m.lotsListed == after.lotsListed - before.lotsListed
            && n.lotsFilled - m.lotsFilled == after.lotsFilled - before.lotsFilled
            && n.premiumUsdg - m.premiumUsdg == after.premiumUsdg - before.premiumUsdg
            && n.settlements - m.settlements == after.settlements - before.settlements
            && n.claimedUsdg - m.claimedUsdg == after.claimedUsdg - before.claimedUsdg
  {
    var account := AccountTouched(t, log).value;
    FloorNeverBinds(t, account, AccountAfter(AccountOf(t, account), log));
  }

  lemma AccountTotalsKept(t: MarketDb, log: MarketLog)
    requires AccountTotals(t.market, t.accounts)
    ensures AccountTotals(MarketAfter(t, log), AccountsAfter(t, log))
  {
    match AccountTouched(t, log)
    case None =>
    case Some(account) =>
      var after := AccountAfter(AccountOf(t, account), log);
      MarketFollowsAccount(t, log);
      AccountPut(t, account, after, PendingOf());
      AccountPut(t, account, after, ListedEver());
      AccountPut(t, account, after, FilledEver());
      AccountPut(t, account, after, PremiumEver());
      AccountPut(t, account, after, SettledTimes());
      AccountPut(t, account, after, ClaimedEver());
  }

  // ---------------------------------------------------------------- the market against its weeks

  function WeekListed(): Week -> int { (w: Week) => w.lotsListed }

  function WeekFilled(): Week -> int { (w: Week) => w.lotsFilled }

  function WeekPremium(): Week -> int { (w: Week) => w.premiumUsdg }

  function WeekSettled(): Week -> int { (w: Week) => w.accountsSettled }

  function WeekAssets(): Week -> int { (w: Week) => w.assetReturned }

  function WeekAssigned(): Week -> int { (w: Week) => w.assignedUsdg }

  // What listings, fills and settlements under weeks nobody set left off the week rows.
  datatype Missed = Missed(lotsListed: nat, lotsFilled: nat, premiumUsdg: nat, settlements: nat, assets: nat, strike: nat)

  function MissedAfter(t: MarketDb, missed: Missed, log: MarketLog): Missed {
    if WeekTouched(t, log).Some? then missed
    else
      match log
      case LotsListed(_, _, _, lots, _) => missed.(lotsListed := missed.lotsListed + lots)
      case LotFilled(_, _, _, premiumUsdg) =>
        missed.(lotsFilled := missed.lotsFilled + 1, premiumUsdg := missed.premiumUsdg + premiumUsdg)
      case Settled(_, assets, strikeUsdg) =>
        missed.(settlements := missed.settlements + 1, assets := missed.assets + assets, strike := missed.strike + strikeUsdg)
      case _ => missed
  }

  function MissedBy(run: seq<MarketEvent>): Missed {
    if run == [] then Missed(0, 0, 0, 0, 0, 0)
    else MissedAfter(MarketTape(run[..|run| - 1]), MissedBy(run[..|run| - 1]), run[|run| - 1].log)
  }

  ghost predicate WeekTotals(m: Market, weeks: map<nat, Week>, missed: Missed) {
    && m.lotsListed == Sum(weeks, WeekListed()) + missed.lotsListed
    && m.lotsFilled == Sum(weeks, WeekFilled()) + missed.lotsFilled
    && m.premiumUsdg == Sum(weeks, WeekPremium()) + missed.premiumUsdg
    && m.settlements == Sum(weeks, WeekSettled()) + missed.settlements
    && m.assetReturned == Sum(weeks, WeekAssets()) + missed.assets
    && m.assignedUsdg == Sum(weeks, WeekAssigned()) + missed.strike
  }

  const NO_TERMS := WeekTerms(0, 0, 0, 0)

  lemma WeekPut(weeks: map<nat, Week>, weekId: nat, w: Week, column: Week -> int)
    requires column(NewWeek(NO_TERMS)) == 0
    ensures Sum(weeks[weekId := w], column) == Sum(weeks, column) - column(Get(weeks, weekId, NewWeek(NO_TERMS))) + column(w)
  {
    SumPut(weeks, weekId, w, NewWeek(NO_TERMS), column);
  }

  lemma WeekPutAll(weeks: map<nat, Week>, weekId: nat, w: Week)
    ensures var v, after := Get(weeks, weekId, NewWeek(NO_TERMS)), weeks[weekId := w];
            && Sum(after, WeekListed()) == Sum(weeks, WeekListed()) - v.lotsListed + w.lotsListed
            && Sum(after, WeekFilled()) == Sum(weeks, WeekFilled()) - v.lotsFilled + w.lotsFilled
            && Sum(after, WeekPremium()) == Sum(weeks, WeekPremium()) - v.premiumUsdg + w.premiumUsdg
            && Sum(after, WeekSettled()) == Sum(weeks, WeekSettled()) - v.accountsSettled + w.accountsSettled
            && Sum(after, WeekAssets()) == Sum(weeks, WeekAssets()) - v.assetReturned + w.assetReturned
            && Sum(after, WeekAssigned()) == Sum(weeks, WeekAssigned()) - v.assignedUsdg + w.assignedUsdg
  {
    WeekPut(weeks, weekId, w, WeekListed());
    WeekPut(weeks, weekId, w, WeekFilled());
    WeekPut(weeks, weekId, w, WeekPremium());
    WeekPut(weeks, weekId, w, WeekSettled());
    WeekPut(weeks, weekId, w, WeekAssets());
    WeekPut(weeks, weekId, w, WeekAssigned());
  }

  lemma WeekTotalsKept(t: MarketDb, missed: Missed, log: MarketLog)
    requires WeekTotals(t.market, t.weeks, missed)
    ensures WeekTotals(MarketAfter(t, log), WeeksAfter(t, log), MissedAfter(t, missed, log))
  {
    hide PendingAfter;
    if log.WeekSet? {
      if log.weekId !in t.weeks {
        WeekPutAll(t.weeks, log.weekId, NewWeek(log.terms));
      }
    } else if WeekTouched(t, log).Some? {
      var weekId := WeekTouched(t, log).value;
      WeekPutAll(t.weeks, weekId, WeekAfter(t.weeks[weekId], log));
    }
  }

  // ---------------------------------------------------------------- whole runs

  // The market's pending lots are its pending accounts' requests, and every other running total is the
  // sum of its accounts', after any logs whatsoever.
  lemma {:induction false} MarketIsItsAccounts(run: seq<MarketEvent>)
    ensures AccountTotals(MarketTape(run).market, MarketTape(run).accounts)
  {
    if run != [] {
      var n := |run| - 1;
      MarketIsItsAccounts(run[..n]);
      AccountTotalsKept(MarketTape(run[..n]), run[n].log);
    }
  }

  // The market's totals are its weeks' totals plus exactly what was listed, filled and settled under
  // weeks that have no row.
  lemma {:induction false} MarketIsItsWeeks(run: seq<MarketEvent>)
    ensures WeekTotals(MarketTape(run).market, MarketTape(run).weeks, MissedBy(run))
  {
    if run != [] {
      var n := |run| - 1;
      MarketIsItsWeeks(run[..n]);
      WeekTotalsKept(MarketTape(run[..n]), MissedBy(run[..n]), run[n].log);
    }
  }

  // A log whose money goes to a week finds that week's row; a caller can look before the log arrives.
  predicate FindsItsWeek(t: MarketDb, log: MarketLog) {
    match log
    case LotsListed(_, _, _, lots, _) => lots == 0 || WeekTouched(t, log).Some?
    case LotFilled(_, _, _, _) => WeekTouched(t, log).Some?
    case Settled(_, _, _) => WeekTouched(t, log).Some?
    case _ => true
  }

  predicate AllFindTheirWeeks(run: seq<MarketEvent>) {
    run == [] || (AllFindTheirWeeks(run[..|run| - 1]) && FindsItsWeek(MarketTape(run[..|run| - 1]), run[|run| - 1].log))
  }

  lemma {:induction false} MissedExactly(run: seq<MarketEvent>)
    ensures MissedBy(run) == Missed(0, 0, 0, 0, 0, 0) <==> AllFindTheirWeeks(run)
  {
    if run != [] {
      MissedExactly(run[..|run| - 1]);
    }
  }

  // The six totals are their weeks' sums exactly when every log found its week's row.
  lemma {:induction false} WeeksAddUpExactly(run: seq<MarketEvent>)
    ensures WeekTotals(MarketTape(run).market, MarketTape(run).weeks, Missed(0, 0, 0, 0, 0, 0)) <==> AllFindTheirWeeks(run)
  {
    hide MarketTape, MissedBy, AllFindTheirWeeks;
    MarketIsItsWeeks(run);
    MissedExactly(run);
  }
}
