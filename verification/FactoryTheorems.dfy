// What a reader of the factory market's tables may rely on, over every legal run, and the handlers
// over a whole run. MarketLedger.dfy holds what is true of any sequence of logs at all.
module FactoryTheorems {
  import opened Common
  import opened Sums
  import opened FactoryLifecycle
  import opened FactoryReducers
  import opened FactoryTape
  import opened MarketLedger
  import opened FactoryChain
  import opened WriterLedger

  function Requested(): Position -> int { (p: Position) => if p.Flat? then p.requested else 0 }

  // The market's pending lots are what the accounts not on the book have asked for, and its account
  // count and week are the factory's.
  lemma {:induction false} MarketMirrorsFactory(run: seq<MarketEvent>)
    requires LegalMarketRun(run)
    ensures var m, g := MarketTape(run).market, BooksAfter(run);
            m.pendingLots == Sum(g.positions, Requested()) && m.accountCount == |g.positions| && m.weekId == g.week
  {
    hide LegalMarketRun, MarketTape, BooksAfter, AllFindTheirWeeks;
    EveryMarketRun(run);
    MarketIsItsAccounts(run);
    PendingIsRequested(MarketTape(run), BooksAfter(run));
  }

  lemma {:induction false} PendingIsRequested(t: MarketDb, g: FactoryBooks)
    requires PositionLaw(t, g) && AccountTotals(t.market, t.accounts)
    ensures t.market.pendingLots == Sum(g.positions, Requested()) && t.market.accountCount == |g.positions|
  {
    forall account: nat | account in t.accounts
      ensures PendingOf()(t.accounts[account]) == Requested()(g.positions[account])
    {
      assert Stands(t.accounts[account], g.positions[account], g.week);
    }
    SumMatch(t.accounts, g.positions, PendingOf(), Requested());
    assert |t.accounts| == |t.accounts.Keys| && |g.positions| == |g.positions.Keys|;
  }

  // An account's row stands where the account does: its status, request, pinned week and fills.
  lemma {:induction false} AccountStandsWhereItDoes(run: seq<MarketEvent>, account: nat)
    requires LegalMarketRun(run)
    ensures var t, g := MarketTape(run), BooksAfter(run);
            && (account in t.accounts <==> account in g.positions)
            && (account in t.accounts ==> Stands(t.accounts[account], g.positions[account], g.week))
  {
    hide LegalMarketRun, MarketTape, BooksAfter, AllFindTheirWeeks;
    EveryMarketRun(run);
  }

  // Its lifetime figures are its settlement rows plus the listing still on the book, and its fill rows.
  lemma {:induction false} AccountLedger(run: seq<MarketEvent>, account: nat)
    requires LegalMarketRun(run)
    ensures var t := MarketTape(run); var a := AccountOf(t, account);
            && a.lotsListed == Sum(t.settlements, SettledLots(account)) + a.listedLots
            && a.lotsFilled == Sum(t.settlements, SettledFills(account)) + a.filledLots
            && a.lotsFilled == Sum(t.fills, FillsOf(account))
            && a.premiumUsdg == Sum(t.fills, PremiumFrom(account))
            && a.settlements == Sum(t.settlements, SettlementsOf(account))
  {
    hide LegalMarketRun, MarketTape, BooksAfter, AllFindTheirWeeks;
    EveryMarketRun(run);
    assert AccountAddsUp(MarketTape(run), account);
  }

  // The accounts a week still waits for are exactly those listed under it, and what it lists and fills
  // is settled under it or on the book.
  lemma {:induction false} WeekBook(run: seq<MarketEvent>, w: nat)
    requires LegalMarketRun(run) && w in MarketTape(run).weeks
    ensures var t := MarketTape(run); var week := t.weeks[w];
            && week.accountsListed - week.accountsSettled == Sum(t.accounts, ListingIn(w))
            && week.lotsListed == Sum(t.settlements, LotsSettledIn(w)) + Sum(t.accounts, LotsOnBook(w))
            && week.lotsFilled == Sum(t.settlements, FillsSettledIn(w)) + Sum(t.accounts, FillsOnBook(w))
  {
    hide LegalMarketRun, MarketTape, BooksAfter, AllFindTheirWeeks;
    EveryMarketRun(run);
    assert WeekOnBook(MarketTape(run), w);
  }

  // A week's money is its fill and settlement rows'.
  lemma {:induction false} WeekMoney(run: seq<MarketEvent>, w: nat)
    requires LegalMarketRun(run) && w in MarketTape(run).weeks
    ensures var t := MarketTape(run); var week := t.weeks[w];
            && week.lotsFilled == Sum(t.fills, FilledIn(w)) && week.premiumUsdg == Sum(t.fills, PremiumIn(w))
            && week.accountsSettled == Sum(t.settlements, SettledIn(w))
            && week.assetReturned == Sum(t.settlements, AssetsIn(w)) && week.assignedUsdg == Sum(t.settlements, StrikeIn(w))
  {
    hide LegalMarketRun, MarketTape, BooksAfter, AllFindTheirWeeks;
    EveryMarketRun(run);
    assert WeekOnRows(MarketTape(run), w);
  }

  // On a legal run no log misses its week, so the market's totals are its weeks'.
  lemma {:induction false} MarketIsItsWeeksExactly(run: seq<MarketEvent>)
    requires LegalMarketRun(run)
    ensures var m, weeks := MarketTape(run).market, MarketTape(run).weeks;
            && m.lotsListed == Sum(weeks, WeekListed()) && m.lotsFilled == Sum(weeks, WeekFilled())
            && m.premiumUsdg == Sum(weeks, WeekPremium()) && m.settlements == Sum(weeks, WeekSettled())
            && m.assetReturned == Sum(weeks, WeekAssets()) && m.assignedUsdg == Sum(weeks, WeekAssigned())
  {
    hide LegalMarketRun, MarketTape, BooksAfter, AllFindTheirWeeks, LedgerLaw;
    EveryMarketRun(run);
    WeeksAddUpExactly(run);
  }

  // Each settlement row's verdict follows from what was written and what came back.
  lemma {:induction false} SettlementsJudged(run: seq<MarketEvent>, id: EventId)
    requires LegalMarketRun(run) && id in MarketTape(run).settlements
    ensures Judged(MarketTape(run).settlements[id], BooksAfter(run).week)
  {
    hide LegalMarketRun, MarketTape, BooksAfter, AllFindTheirWeeks;
    EveryMarketRun(run);
  }

  // A replay that starts after a week was set misses that week, and the totals stop adding up: the first
  // log is a listing under a week with no row.
  lemma {:induction false} MissedWeekFallsOut(e: MarketEvent)
    requires e.log.LotsListed? && 0 < e.log.lots
    ensures MarketTape([e]).market.lotsListed == e.log.lots && MarketTape([e]).weeks == map[]
    ensures !AllFindTheirWeeks([e])
  {
    assert [e][..0] == [];
    assert MarketTape([e]) == ReduceMarket(EMPTY_MARKET, e.id, e.log);
  }

  // The handlers over a whole run leave the tables every theorem is about.
  method ReplayedMarket(run: seq<MarketEvent>) returns (index: MarketIndex)
    ensures fresh(index) && index.Rows() == MarketTape(run)
    ensures AccountTotals(index.market, index.accounts)
  {
    index := new MarketIndex();
    for i := 0 to |run|
      invariant fresh(index) && index.Rows() == MarketTape(run[..i])
    {
      index.Apply(run[i].id, run[i].log);
      assert run[..i + 1][..i] == run[..i];
    }
    assert run[..|run|] == run;
    MarketIsItsAccounts(run);
  }
}
