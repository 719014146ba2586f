// The factory market's tables read straight off the logs: on any tape at all, every account's, week's and
// market figure is the total of the logs that name it or the last one said; over every legal run, every fill
// and settlement row is its log's, under the owner and the listing the account really had.
module FactoryHistory {
  import opened Common
  import opened History
  import opened FactoryLifecycle
  import opened FactoryReducers
  import opened MarketLedger
  import opened FactoryChain
  import opened WriterLedger
  import opened FactoryTheorems

  // ---------------------------------------------------------------- an account's figures

  function DepositedBy(account: nat): MarketEvent -> int {
    (e: MarketEvent) => if e.log.Deposited? && e.log.account == account then e.log.assets else 0
  }

  function WithdrawnBy(account: nat): MarketEvent -> int {
    (e: MarketEvent) => if e.log.Withdrawn? && e.log.account == account then e.log.assets else 0
  }

  function ClaimedBy(account: nat): MarketEvent -> int {
    (e: MarketEvent) => if e.log.UsdgClaimed? && e.log.account == account then e.log.amount else 0
  }

  function LotsListedBy(account: nat): MarketEvent -> int {
    (e: MarketEvent) => if e.log.LotsListed? && e.log.account == account then e.log.lots else 0
  }

  function LotsFilledBy(account: nat): MarketEvent -> int {
    (e: MarketEvent) => if e.log.LotFilled? && e.log.account == account then 1 else 0
  }

  function PremiumPaidTo(account: nat): MarketEvent -> int {
    (e: MarketEvent) => if e.log.LotFilled? && e.log.account == account then e.log.premiumUsdg else 0
  }

  function TimesSettled(account: nat): MarketEvent -> int {
    (e: MarketEvent) => if e.log.Settled? && e.log.account == account then 1 else 0
  }

  // ---------------------------------------------------------------- where an account stands

  function StatusSaid(account: nat): MarketEvent -> Option<AccountStatus> {
    (e: MarketEvent) =>
      if e.log.WriteRequested? && e.log.account == account then
        Some(if e.log.lots > 0 then AccountStatus.Pending else AccountStatus.Idle)
      else if e.log.LotsListed? && e.log.account == account then Some(AccountStatus.Listed)
      else if e.log.Settled? && e.log.account == account then Some(AccountStatus.Settled)
      else None
  }

  function RequestSaid(account: nat): MarketEvent -> Option<nat> {
    (e: MarketEvent) =>
      if e.log.WriteRequested? && e.log.account == account then Some(e.log.lots)
      else if e.log.Settled? && e.log.account == account then Some(0)
      else None
  }

  datatype Booked = Booked(weekId: Option<nat>, lots: nat, askUsdg: nat)

  function BookedSaid(account: nat): MarketEvent -> Option<Booked> {
    (e: MarketEvent) =>
      if e.log.LotsListed? && e.log.account == account then Some(Booked(Some(e.log.weekId), e.log.lots, e.log.askUsdg))
      else if e.log.Settled? && e.log.account == account then Some(Booked(None, 0, 0))
      else None
  }

  function IndexSaid(account: nat): MarketEvent -> Option<nat> {
    (e: MarketEvent) => if e.log.AccountCreated? && e.log.account == account then Some(e.log.index) else None
  }

  lemma {:induction false} AccountRetold(run: seq<MarketEvent>, account: nat)
    ensures var a := AccountOf(MarketTape(run), account);
            && a.depositedTotal == Added(run, DepositedBy(account)) && a.withdrawnTotal == Added(run, WithdrawnBy(account))
            && a.claimedUsdg == Added(run, ClaimedBy(account))
            && a.lotsListed == Added(run, LotsListedBy(account)) && a.lotsFilled == Added(run, LotsFilledBy(account))
            && a.premiumUsdg == Added(run, PremiumPaidTo(account)) && a.settlements == Added(run, TimesSettled(account))
            && a.status == Or(Latest(run, StatusSaid(account)), AccountStatus.Idle)
            && a.requestedLots == Or(Latest(run, RequestSaid(account)), 0)
            && Booked(a.listedWeekId, a.listedLots, a.listedAskUsdg) == Or(Latest(run, BookedSaid(account)), Booked(None, 0, 0))
            && a.index == Or(Latest(run, IndexSaid(account)), 0)
  {
    if run != [] {
      hide ReduceMarket, AccountOf;
      var n := |run| - 1;
      AccountRetold(run[..n], account);
      AccountStep(MarketTape(run[..n]), run[n], account);
    } else {
      assert MarketTape(run) == EMPTY_MARKET;
    }
  }

  lemma AccountStep(t: MarketDb, e: MarketEvent, account: nat)
    ensures var a, b := AccountOf(t, account), AccountOf(ReduceMarket(t, e.id, e.log), account);
            && b.depositedTotal == a.depositedTotal + DepositedBy(account)(e)
            && b.withdrawnTotal == a.withdrawnTotal + WithdrawnBy(account)(e) && b.claimedUsdg == a.claimedUsdg + ClaimedBy(account)(e)
            && b.lotsListed == a.lotsListed + LotsListedBy(account)(e) && b.lotsFilled == a.lotsFilled + LotsFilledBy(account)(e)
            && b.premiumUsdg == a.premiumUsdg + PremiumPaidTo(account)(e) && b.settlements == a.settlements + TimesSettled(account)(e)
            && b.status == Or(StatusSaid(account)(e), a.status) && b.requestedLots == Or(RequestSaid(account)(e), a.requestedLots)
            && Booked(b.listedWeekId, b.listedLots, b.listedAskUsdg)
               == Or(BookedSaid(account)(e), Booked(a.listedWeekId, a.listedLots, a.listedAskUsdg))
            && b.index == Or(IndexSaid(account)(e), a.index)
  {
    hide MarketAfter, WeeksAfter, FillsAfter, SettlementsAfter;
  }

  // An account has a row once any log but a rekey names it.
  function AccountNamed(account: nat): MarketEvent -> Option<bool> {
    (e: MarketEvent) =>
      if !e.log.WeekSet? && !e.log.AccountRekeyed? && e.log.account == account then Some(true) else None
  }

  lemma {:induction false} AccountsAreNamed(run: seq<MarketEvent>, account: nat)
    ensures account in MarketTape(run).accounts <==> Latest(run, AccountNamed(account)).Some?
  {
    if run != [] {
      hide AccountAfter, MarketAfter, WeeksAfter, FillsAfter, SettlementsAfter;
      AccountsAreNamed(run[..|run| - 1], account);
    }
  }

  // A fill's or a settlement's row is never rewritten, even when its event is replayed.
  lemma {:induction false} RowsNeverRewritten(run: seq<MarketEvent>, more: seq<MarketEvent>, id: EventId)
    ensures var t, u := MarketTape(run), MarketTape(run + more);
            && (id in t.fills ==> id in u.fills && u.fills[id] == t.fills[id])
            && (id in t.settlements ==> id in u.settlements && u.settlements[id] == t.settlements[id])
    decreases |more|
  {
    if more == [] {
      assert run + more == run;
    } else {
      hide MarketTape, AccountsAfter, MarketAfter, WeeksAfter;
      var n := |more| - 1;
      assert run + more == run + more[..n] + [more[n]];
      RowsNeverRewritten(run, more[..n], id);
      LastMarketTape(run + more[..n], more[n]);
    }
  }

  // ---------------------------------------------------------------- weeks and the market

  function TermsSetFor(weekId: nat): MarketEvent -> Option<WeekTerms> {
    (e: MarketEvent) => if e.log.WeekSet? && e.log.weekId == weekId then Some(e.log.terms) else None
  }

  // A week keeps the terms it was first set with.
  lemma {:induction false} WeekTermsRetold(run: seq<MarketEvent>, weekId: nat)
    ensures var weeks := MarketTape(run).weeks;
            && (weekId in weeks <==> Earliest(run, TermsSetFor(weekId)).Some?)
            && (weekId in weeks ==> Some(weeks[weekId].terms) == Earliest(run, TermsSetFor(weekId)))
  {
    if run != [] {
      hide AccountsAfter, MarketAfter, FillsAfter, SettlementsAfter;
      WeekTermsRetold(run[..|run| - 1], weekId);
    }
  }

  datatype CurrentWeek = CurrentWeek(weekId: nat, terms: WeekTerms)

  function WeekSaid(): MarketEvent -> Option<CurrentWeek> {
    (e: MarketEvent) => if e.log.WeekSet? then Some(CurrentWeek(e.log.weekId, e.log.terms)) else None
  }

  function Created(): MarketEvent -> int { (e: MarketEvent) => if e.log.AccountCreated? then 1 else 0 }

  function LotsListedEver(): MarketEvent -> int { (e: MarketEvent) => if e.log.LotsListed? then e.log.lots else 0 }

  function LotsFilledEver(): MarketEvent -> int { (e: MarketEvent) => if e.log.LotFilled? then 1 else 0 }

  function PremiumPaidEver(): MarketEvent -> int { (e: MarketEvent) => if e.log.LotFilled? then e.log.premiumUsdg else 0 }

  function SettledEver(): MarketEvent -> int { (e: MarketEvent) => if e.log.Settled? then 1 else 0 }

  function AssetsReturnedEver(): MarketEvent -> int { (e: MarketEvent) => if e.log.Settled? then e.log.assets else 0 }

  function StrikePaidEver(): MarketEvent -> int { (e: MarketEvent) => if e.log.Settled? then e.log.strikeUsdg else 0 }

  function ClaimedUsdgEver(): MarketEvent -> int { (e: MarketEvent) => if e.log.UsdgClaimed? then e.log.amount else 0 }

  lemma {:induction false} MarketRetold(run: seq<MarketEvent>)
    ensures var m := MarketTape(run).market;
            && CurrentWeek(m.weekId, m.terms) == Or(Latest(run, WeekSaid()), CurrentWeek(0, NO_TERMS))
            && m.accountCount == Added(run, Created()) && m.lotsListed == Added(run, LotsListedEver())
            && m.lotsFilled == Added(run, LotsFilledEver()) && m.premiumUsdg == Added(run, PremiumPaidEver())
            && m.settlements == Added(run, SettledEver()) && m.assetReturned == Added(run, AssetsReturnedEver())
            && m.assignedUsdg == Added(run, StrikePaidEver()) && m.claimedUsdg == Added(run, ClaimedUsdgEver())
  {
    if run != [] {
      hide AccountsAfter, WeeksAfter, FillsAfter, SettlementsAfter, PendingAfter;
      MarketRetold(run[..|run| - 1]);
    }
  }

  // ---------------------------------------------------------------- owners, options and rows, on legal runs

  // Created under an owner, rekeyed by the factory, or transferred.
  function OwnerSaid(account: nat): MarketEvent -> Option<nat> {
    (e: MarketEvent) =>
      if e.log.AccountCreated? && e.log.account == account then Some(e.log.owner)
      else if (e.log.AccountRekeyed? || e.log.OwnershipTransferred?) && e.log.account == account then Some(e.log.newOwner)
      else None
  }

  // The option of the last listing, until a settlement that brings anything back, or had nothing filled, clears it.
  function OptionHeld(run: seq<MarketEvent>, account: nat): Option<nat> {
    if run == [] then None
    else
      var earlier, log := run[..|run| - 1], run[|run| - 1].log;
      if log.LotsListed? && log.account == account then Some(log.optionId)
      else if log.Settled? && log.account == account then
        var p := Get(BooksAfter(earlier).positions, account, Flat(0));
        if p.OnBook? && p.filled > 0 && log.assets == 0 && log.strikeUsdg == 0 then OptionHeld(earlier, account) else None
      else OptionHeld(earlier, account)
  }

  lemma {:induction false} OwnerAndOptionRetold(run: seq<MarketEvent>, account: nat)
    requires LegalMarketRun(run)
    ensures var a := AccountOf(MarketTape(run), account);
            a.owner == Or(Latest(run, OwnerSaid(account)), 0) && a.optionId == OptionHeld(run, account)
  {
    if run != [] {
      hide ReduceMarket, AccountOf, LegalMarketEvent, NextBooks, LedgerLaw;
      var n := |run| - 1;
      OwnerAndOptionRetold(run[..n], account);
      EveryMarketRun(run[..n]);
      OwnerStep(MarketTape(run[..n]), BooksAfter(run[..n]), run[n], account);
    } else {
      assert MarketTape(run) == EMPTY_MARKET;
    }
  }

  lemma OwnerStep(t: MarketDb, g: FactoryBooks, e: MarketEvent, account: nat)
    requires PositionLaw(t, g) && LegalMarketEvent(g, e)
    ensures var a, b := AccountOf(t, account), AccountOf(ReduceMarket(t, e.id, e.log), account);
            && b.owner == Or(OwnerSaid(account)(e), a.owner)
            && b.optionId == (if e.log.LotsListed? && e.log.account == account then Some(e.log.optionId)
                              else if e.log.Settled? && e.log.account == account then
                                var p := Get(g.positions, account, Flat(0));
                                if p.OnBook? && p.filled > 0 && e.log.assets == 0 && e.log.strikeUsdg == 0 then a.optionId else None
                              else a.optionId)
  {
    hide MarketAfter, WeeksAfter, FillsAfter, SettlementsAfter;
    if account in g.positions {
      assert Stands(t.accounts[account], g.positions[account], g.week);
    }
  }

  // The row a fill adds, under the account's own listing.
  lemma {:induction false} FillTold(run: seq<MarketEvent>, e: MarketEvent)
    requires LegalMarketRun(run) && LegalMarketEvent(BooksAfter(run), e) && e.log.LotFilled?
    ensures var g, fills := BooksAfter(run), MarketTape(run + [e]).fills;
            && e.log.account in g.positions && g.positions[e.log.account].OnBook?
            && fills == MarketTape(run).fills[e.id := FillRow(
                 e.log.account, Or(Latest(run, OwnerSaid(e.log.account)), 0), Some(g.positions[e.log.account].week),
                 e.log.optionId, e.log.orderHash, e.log.premiumUsdg)]
  {
    hide LegalMarketRun, BooksAfter, MarketTape, AllFindTheirWeeks, Latest;
    LastMarketTape(run, e);
    EveryMarketRun(run);
    OwnerAndOptionRetold(run, e.log.account);
    RowOfFill(MarketTape(run), BooksAfter(run), e);
  }

  lemma RowOfFill(t: MarketDb, g: FactoryBooks, e: MarketEvent)
    requires PositionLaw(t, g) && LegalMarketEvent(g, e) && e.log.LotFilled?
    ensures e.log.account in g.positions && g.positions[e.log.account].OnBook?
    ensures ReduceMarket(t, e.id, e.log).fills == t.fills[e.id := FillRow(
              e.log.account, AccountOf(t, e.log.account).owner, Some(g.positions[e.log.account].week),
              e.log.optionId, e.log.orderHash, e.log.premiumUsdg)]
  {
    hide AccountAfter, MarketAfter, WeeksAfter;
    assert Stands(t.accounts[e.log.account], g.positions[e.log.account], g.week);
  }

  // The row a settlement adds: what the account had listed and filled, what came back, and the verdict of those
  // figures alone.
  lemma {:induction false} SettlementTold(run: seq<MarketEvent>, e: MarketEvent)
    requires LegalMarketRun(run) && LegalMarketEvent(BooksAfter(run), e) && e.log.Settled?
    ensures var g, rows := BooksAfter(run), MarketTape(run + [e]).settlements;
            && e.log.account in g.positions && g.positions[e.log.account].OnBook?
            && var p := g.positions[e.log.account];
               rows == MarketTape(run).settlements[e.id := SettlementRow(
                 e.log.account, Or(Latest(run, OwnerSaid(e.log.account)), 0), Some(p.week), p.lots, p.filled,
                 e.log.assets, e.log.strikeUsdg,
                 if p.filled == 0 then Unfilled
                 else if e.log.strikeUsdg > 0 then Assigned
                 else if e.log.assets > 0 then Expired
                 else Unredeemed)]
  {
    hide LegalMarketRun, BooksAfter, MarketTape, AllFindTheirWeeks, Latest;
    LastMarketTape(run, e);
    EveryMarketRun(run);
    OwnerAndOptionRetold(run, e.log.account);
    RowOfSettlement(MarketTape(run), BooksAfter(run), e);
  }

  lemma RowOfSettlement(t: MarketDb, g: FactoryBooks, e: MarketEvent)
    requires PositionLaw(t, g) && LegalMarketEvent(g, e) && e.log.Settled?
    ensures e.log.account in g.positions && g.positions[e.log.account].OnBook?
    ensures var p := g.positions[e.log.account];
            ReduceMarket(t, e.id, e.log).settlements == t.settlements[e.id := SettlementRow(
              e.log.account, AccountOf(t, e.log.account).owner, Some(p.week), p.lots, p.filled, e.log.assets, e.log.strikeUsdg,
              if p.filled == 0 then Unfilled
              else if e.log.strikeUsdg > 0 then Assigned
              else if e.log.assets > 0 then Expired
              else Unredeemed)]
  {
    hide AccountAfter, MarketAfter, WeeksAfter;
    assert Stands(t.accounts[e.log.account], g.positions[e.log.account], g.week);
  }

  lemma {:induction false} LastMarketTape(run: seq<MarketEvent>, e: MarketEvent)
    ensures MarketTape(run + [e]) == ReduceMarket(MarketTape(run), e.id, e.log)
  {
    hide ReduceMarket;
    assert (run + [e])[..|run|] == run;
  }
}
