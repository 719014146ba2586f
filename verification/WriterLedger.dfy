// The week and settlement ledger of the factory market: after every log of every legal run, each
// account row stands where its account does, and each account's and each week's running figures are
// the sums of the fill and settlement rows behind them plus what is still on the book.
module WriterLedger {
  import opened Common
  import opened Sums
  import opened FactoryLifecycle
  import opened FactoryReducers
  import opened MarketLedger
  import opened FactoryChain

  // ---------------------------------------------------------------- rows against positions

  predicate Stands(a: WriterAccount, p: Position, week: nat) {
    match p
    case Flat(requested) =>
      && a.requestedLots == requested && a.status != AccountStatus.Listed
      && (a.status == AccountStatus.Pending <==> 0 < requested)
      && a.listedWeekId == None && a.listedLots == 0 && a.filledLots == 0
    case OnBook(w, lots, filled) =>
      && a.status == AccountStatus.Listed && a.listedWeekId == Some(w) && 1 <= w <= week
      && a.listedLots == lots && a.filledLots == filled <= lots
  }

  ghost predicate PositionLaw(t: MarketDb, g: FactoryBooks) {
    && t.accounts.Keys == g.positions.Keys
    && (forall account: nat :: account in g.positions ==> Stands(t.accounts[account], g.positions[account], g.week))
    && (forall w: nat :: w in t.weeks <==> 1 <= w <= g.week)
    && t.fills.Keys <= g.seen && t.settlements.Keys <= g.seen
    && t.market.weekId == g.week
    && t.market.accountCount == |t.accounts|
  }

  lemma KeysKept(t: MarketDb, g: FactoryBooks, e: MarketEvent)
    requires PositionLaw(t, g) && LegalMarketEvent(g, e)
    ensures AccountsAfter(t, e.log).Keys == NextPositions(g.positions, e.log).Keys == t.accounts.Keys + NewAccount(e.log)
  {
    hide AccountAfter;
  }

  lemma WeekKeysKept(t: MarketDb, g: FactoryBooks, e: MarketEvent)
    requires PositionLaw(t, g) && LegalMarketEvent(g, e)
    ensures forall w: nat :: w in WeeksAfter(t, e.log) <==> 1 <= w <= NextBooks(g, e).week
  {
    hide WeekAfter;
  }

  lemma RowKeysKept(t: MarketDb, g: FactoryBooks, e: MarketEvent)
    requires PositionLaw(t, g) && LegalMarketEvent(g, e)
    ensures FillsAfter(t, e.id, e.log).Keys <= NextBooks(g, e).seen
    ensures SettlementsAfter(t, e.id, e.log).Keys <= NextBooks(g, e).seen
  {
    hide FillOf, SettlementOf;
  }

  function NewAccount(log: MarketLog): set<nat> {
    if log.AccountCreated? then {log.account} else {}
  }

  lemma CounterMoves(t: MarketDb, log: MarketLog)
    ensures var m := MarketAfter(t, log);
            && m.accountCount == t.market.accountCount + |NewAccount(log)|
            && m.weekId == if log.WeekSet? then log.weekId else t.market.weekId
  {
    hide PendingAfter;
  }

  lemma CountKept(t: MarketDb, g: FactoryBooks, e: MarketEvent)
    requires PositionLaw(t, g) && LegalMarketEvent(g, e)
    ensures MarketAfter(t, e.log).accountCount == |AccountsAfter(t, e.log)|
    ensures MarketAfter(t, e.log).weekId == NextBooks(g, e).week
  {
    hide MarketAfter, AccountsAfter, WeeksAfter, NextPositions;
    KeysKept(t, g, e);
    CounterMoves(t, e.log);
    var before, created := t.accounts.Keys, NewAccount(e.log);
    assert before * created == {};
    assert |before + created| == |before| + |created|;
    assert |AccountsAfter(t, e.log)| == |AccountsAfter(t, e.log).Keys|;
  }

  lemma PositionKept(t: MarketDb, g: FactoryBooks, e: MarketEvent)
    requires PositionLaw(t, g) && LegalMarketEvent(g, e)
    ensures PositionLaw(ReduceMarket(t, e.id, e.log), NextBooks(g, e))
  {
    KeysKept(t, g, e);
    WeekKeysKept(t, g, e);
    RowKeysKept(t, g, e);
    CountKept(t, g, e);
    hide AccountsAfter, WeeksAfter, FillsAfter, SettlementsAfter, MarketAfter;
    var u, h := ReduceMarket(t, e.id, e.log), NextBooks(g, e);
    forall account: nat | account in h.positions ensures Stands(u.accounts[account], h.positions[account], h.week) {
      AccountStands(t, g, e, account);
    }
  }

  lemma AccountStands(t: MarketDb, g: FactoryBooks, e: MarketEvent, account: nat)
    requires PositionLaw(t, g) && LegalMarketEvent(g, e) && account in NextBooks(g, e).positions
    ensures account in AccountsAfter(t, e.log)
    ensures Stands(AccountsAfter(t, e.log)[account], NextBooks(g, e).positions[account], NextBooks(g, e).week)
  {
    if AccountTouched(t, e.log) == Some(account) {
      RowStands(t, g, e, account);
    } else {
      assert Stands(t.accounts[account], g.positions[account], g.week);
    }
  }

  lemma RowStands(t: MarketDb, g: FactoryBooks, e: MarketEvent, account: nat)
    requires PositionLaw(t, g) && LegalMarketEvent(g, e) && AccountTouched(t, e.log) == Some(account)
    ensures account in NextBooks(g, e).positions
    ensures Stands(AccountAfter(AccountOf(t, account), e.log), NextBooks(g, e).positions[account], NextBooks(g, e).week)
  {
    if account in g.positions {
      assert Stands(t.accounts[account], g.positions[account], g.week);
    }
  }

  // On a legal run every log finds its week's row.
  lemma LegalFindsWeek(t: MarketDb, g: FactoryBooks, e: MarketEvent)
    requires PositionLaw(t, g) && LegalMarketEvent(g, e)
    ensures FindsItsWeek(t, e.log)
    ensures e.log.LotsListed? ==> WeekTouched(t, e.log) == Some(e.log.weekId)
    ensures e.log.LotFilled? || e.log.Settled? ==>
              e.log.account in t.accounts && t.accounts[e.log.account].listedWeekId == WeekTouched(t, e.log) != None
  {
    if e.log.LotFilled? || e.log.Settled? {
      assert Stands(t.accounts[e.log.account], g.positions[e.log.account], g.week);
    }
  }

  // ---------------------------------------------------------------- one account's rows

  function SettledLots(account: nat): SettlementRow -> int { (r: SettlementRow) => if r.account == account then r.lotsListed else 0 }

  function SettledFills(account: nat): SettlementRow -> int { (r: SettlementRow) => if r.account == account then r.lotsFilled else 0 }

  function SettlementsOf(account: nat): SettlementRow -> int { (r: SettlementRow) => if r.account == account then 1 else 0 }

  function FillsOf(account: nat): FillRow -> int { (f: FillRow) => if f.account == account then 1 else 0 }

  function PremiumFrom(account: nat): FillRow -> int { (f: FillRow) => if f.account == account then f.premiumUsdg else 0 }

  ghost predicate AccountAddsUp(t: MarketDb, account: nat) {
    var a := AccountOf(t, account);
    && a.lotsListed == Sum(t.settlements, SettledLots(account)) + a.listedLots
    && a.lotsFilled == Sum(t.settlements, SettledFills(account)) + a.filledLots
    && a.lotsFilled == Sum(t.fills, FillsOf(account))
    && a.premiumUsdg == Sum(t.fills, PremiumFrom(account))
    && a.settlements == Sum(t.settlements, SettlementsOf(account))
  }

  lemma SettlementPut(t: MarketDb, id: EventId, r: SettlementRow, column: SettlementRow -> int)
    requires id !in t.settlements
    ensures Sum(t.settlements[id := r], column) == Sum(t.settlements, column) + column(r)
  {
    SumSplit(t.settlements[id := r], id, column);
    assert t.settlements[id := r] - {id} == t.settlements;
  }

  lemma FillPut(t: MarketDb, id: EventId, f: FillRow, column: FillRow -> int)
    requires id !in t.fills
    ensures Sum(t.fills[id := f], column) == Sum(t.fills, column) + column(f)
  {
    SumSplit(t.fills[id := f], id, column);
    assert t.fills[id := f] - {id} == t.fills;
  }

  lemma AccountSumsMove(t: MarketDb, e: MarketEvent, account: nat)
    requires e.id !in t.fills && e.id !in t.settlements
    ensures var u := ReduceMarket(t, e.id, e.log);
            var r := e.log.Settled? && e.log.account == account;
            var f := e.log.LotFilled? && e.log.account == account;
            && Sum(u.settlements, SettledLots(account)) == Sum(t.settlements, SettledLots(account)) + (if r then AccountOf(t, account).listedLots else 0)
            && Sum(u.settlements, SettledFills(account)) == Sum(t.settlements, SettledFills(account)) + (if r then AccountOf(t, account).filledLots else 0)
            && Sum(u.settlements, SettlementsOf(account)) == Sum(t.settlements, SettlementsOf(account)) + (if r then 1 else 0)
            && Sum(u.fills, FillsOf(account)) == Sum(t.fills, FillsOf(account)) + (if f then 1 else 0)
            && Sum(u.fills, PremiumFrom(account)) == Sum(t.fills, PremiumFrom(account)) + (if f then e.log.premiumUsdg else 0)
  {
    if e.log.Settled? {
      var row := SettlementOf(t, e.log);
      SettlementPut(t, e.id, row, SettledLots(account));
      SettlementPut(t, e.id, row, SettledFills(account));
      SettlementPut(t, e.id, row, SettlementsOf(account));
    } else if e.log.LotFilled? {
      FillPut(t, e.id, FillOf(t, e.log), FillsOf(account));
      FillPut(t, e.id, FillOf(t, e.log), PremiumFrom(account));
    }
  }

  // What a legal log does to the figures of one account's row.
  lemma AccountColumns(t: MarketDb, g: FactoryBooks, e: MarketEvent, account: nat)
    requires PositionLaw(t, g) && LegalMarketEvent(g, e)
    ensures var a, b := AccountOf(t, account), AccountOf(ReduceMarket(t, e.id, e.log), account);
            var l := e.log.LotsListed? && e.log.account == account;
            var f := e.log.LotFilled? && e.log.account == account;
            var r := e.log.Settled? && e.log.account == account;
            && b.lotsListed - b.listedLots == a.lotsListed - a.listedLots + (if r then a.listedLots else 0)
            && b.lotsFilled - b.filledLots == a.lotsFilled - a.filledLots + (if r then a.filledLots else 0)
            && b.lotsFilled == a.lotsFilled + (if f then 1 else 0)
            && b.premiumUsdg == a.premiumUsdg + (if f then e.log.premiumUsdg else 0)
            && b.settlements == a.settlements + (if r then 1 else 0)
  {
    if account in g.positions {
      assert Stands(t.accounts[account], g.positions[account], g.week);
    }
  }

  lemma AccountKept(t: MarketDb, g: FactoryBooks, e: MarketEvent, account: nat)
    requires PositionLaw(t, g) && LegalMarketEvent(g, e) && AccountAddsUp(t, account)
    ensures AccountAddsUp(ReduceMarket(t, e.id, e.log), account)
  {
    Unseen(t, g, e);
    hide PositionLaw, LegalMarketEvent, ReduceMarket;
    AccountSumsMove(t, e, account);
    AccountColumns(t, g, e, account);
  }

  lemma Unseen(t: MarketDb, g: FactoryBooks, e: MarketEvent)
    requires PositionLaw(t, g) && LegalMarketEvent(g, e)
    ensures e.id !in t.fills && e.id !in t.settlements
  {
  }

  // ---------------------------------------------------------------- one week's rows

  function ListingIn(w: nat): WriterAccount -> int { (a: WriterAccount) => if a.listedWeekId == Some(w) then 1 else 0 }

  function LotsOnBook(w: nat): WriterAccount -> int { (a: WriterAccount) => if a.listedWeekId == Some(w) then a.listedLots else 0 }

  function FillsOnBook(w: nat): WriterAccount -> int { (a: WriterAccount) => if a.listedWeekId == Some(w) then a.filledLots else 0 }

  function SettledIn(w: nat): SettlementRow -> int { (r: SettlementRow) => if r.weekId == Some(w) then 1 else 0 }

  function LotsSettledIn(w: nat): SettlementRow -> int { (r: SettlementRow) => if r.weekId == Some(w) then r.lotsListed else 0 }

  function FillsSettledIn(w: nat): SettlementRow -> int { (r: SettlementRow) => if r.weekId == Some(w) then r.lotsFilled else 0 }

  function AssetsIn(w: nat): SettlementRow -> int { (r: SettlementRow) => if r.weekId == Some(w) then r.assetReturned else 0 }

  function StrikeIn(w: nat): SettlementRow -> int { (r: SettlementRow) => if r.weekId == Some(w) then r.strikeUsdg else 0 }

  function FilledIn(w: nat): FillRow -> int { (f: FillRow) => if f.weekId == Some(w) then 1 else 0 }

  function PremiumIn(w: nat): FillRow -> int { (f: FillRow) => if f.weekId == Some(w) then f.premiumUsdg else 0 }

  function WeekOf(t: MarketDb, w: nat): Week { Get(t.weeks, w, NewWeek(NO_TERMS)) }

  // What is on the book under a week, and what has been settled under it.
  ghost predicate WeekOnBook(t: MarketDb, w: nat) {
    var week := WeekOf(t, w);
    && week.accountsListed == week.accountsSettled + Sum(t.accounts, ListingIn(w))
    && week.lotsListed == Sum(t.settlements, LotsSettledIn(w)) + Sum(t.accounts, LotsOnBook(w))
    && week.lotsFilled == Sum(t.settlements, FillsSettledIn(w)) + Sum(t.accounts, FillsOnBook(w))
  }

  ghost predicate WeekOnRows(t: MarketDb, w: nat) {
    var week := WeekOf(t, w);
    && week.accountsSettled == Sum(t.settlements, SettledIn(w))
    && week.assetReturned == Sum(t.settlements, AssetsIn(w))
    && week.assignedUsdg == Sum(t.settlements, StrikeIn(w))
    && week.lotsFilled == Sum(t.fills, FilledIn(w))
    && week.premiumUsdg == Sum(t.fills, PremiumIn(w))
  }

  // How a log moves the rows of week w.
  lemma WeekRowMoves(t: MarketDb, g: FactoryBooks, e: MarketEvent, w: nat)
    requires PositionLaw(t, g) && LegalMarketEvent(g, e)
    ensures var before, after := WeekOf(t, w), WeekOf(ReduceMarket(t, e.id, e.log), w);
            if WeekTouched(t, e.log) == Some(w) then after == WeekAfter(before, e.log)
            else after == before || (e.log.WeekSet? && before == NewWeek(NO_TERMS) && after == NewWeek(e.log.terms))
  {
  }

  lemma SettlementMovesWeek(t: MarketDb, e: MarketEvent, w: nat)
    requires e.id !in t.settlements && e.log.Settled?
    ensures var s, r := ReduceMarket(t, e.id, e.log).settlements, SettlementOf(t, e.log);
            && Sum(s, SettledIn(w)) == Sum(t.settlements, SettledIn(w)) + SettledIn(w)(r)
            && Sum(s, AssetsIn(w)) == Sum(t.settlements, AssetsIn(w)) + AssetsIn(w)(r)
            && Sum(s, StrikeIn(w)) == Sum(t.settlements, StrikeIn(w)) + StrikeIn(w)(r)
            && Sum(s, LotsSettledIn(w)) == Sum(t.settlements, LotsSettledIn(w)) + LotsSettledIn(w)(r)
            && Sum(s, FillsSettledIn(w)) == Sum(t.settlements, FillsSettledIn(w)) + FillsSettledIn(w)(r)
  {
    var r := SettlementOf(t, e.log);
    SettlementPut(t, e.id, r, SettledIn(w));
    SettlementPut(t, e.id, r, AssetsIn(w));
    SettlementPut(t, e.id, r, StrikeIn(w));
    SettlementPut(t, e.id, r, LotsSettledIn(w));
    SettlementPut(t, e.id, r, FillsSettledIn(w));
  }

  lemma FillMovesWeek(t: MarketDb, e: MarketEvent, w: nat)
    requires e.id !in t.fills && e.log.LotFilled?
    ensures var s, f := ReduceMarket(t, e.id, e.log).fills, FillOf(t, e.log);
            && Sum(s, FilledIn(w)) == Sum(t.fills, FilledIn(w)) + FilledIn(w)(f)
            && Sum(s, PremiumIn(w)) == Sum(t.fills, PremiumIn(w)) + PremiumIn(w)(f)
  {
    FillPut(t, e.id, FillOf(t, e.log), FilledIn(w));
    FillPut(t, e.id, FillOf(t, e.log), PremiumIn(w));
  }

  lemma AccountMovesWeek(t: MarketDb, log: MarketLog, w: nat)
    requires AccountTouched(t, log).Some?
    ensures var account := AccountTouched(t, log).value;
            var before := AccountOf(t, account);
            var after, s := AccountAfter(before, log), AccountsAfter(t, log);
            && Sum(s, ListingIn(w)) == Sum(t.accounts, ListingIn(w)) - ListingIn(w)(before) + ListingIn(w)(after)
            && Sum(s, LotsOnBook(w)) == Sum(t.accounts, LotsOnBook(w)) - LotsOnBook(w)(before) + LotsOnBook(w)(after)
            && Sum(s, FillsOnBook(w)) == Sum(t.accounts, FillsOnBook(w)) - FillsOnBook(w)(before) + FillsOnBook(w)(after)
  {
    var account := AccountTouched(t, log).value;
    var after := AccountAfter(AccountOf(t, account), log);
    AccountPut(t, account, after, ListingIn(w));
    AccountPut(t, account, after, LotsOnBook(w));
    AccountPut(t, account, after, FillsOnBook(w));
  }

  // What a legal log adds to one week's row, against the row it appends.
  lemma WeekColumns(t: MarketDb, g: FactoryBooks, e: MarketEvent, w: nat)
    requires PositionLaw(t, g) && LegalMarketEvent(g, e)
    ensures var a, b := WeekOf(t, w), WeekOf(ReduceMarket(t, e.id, e.log), w);
            var l := e.log.LotsListed? && e.log.weekId == w;
            && b.accountsListed == a.accountsListed + (if l then 1 else 0)
            && b.lotsListed == a.lotsListed + (if l then e.log.lots else 0)
            && b.lotsFilled == a.lotsFilled + (if e.log.LotFilled? then FilledIn(w)(FillOf(t, e.log)) else 0)
            && b.premiumUsdg == a.premiumUsdg + (if e.log.LotFilled? then PremiumIn(w)(FillOf(t, e.log)) else 0)
            && b.accountsSettled == a.accountsSettled + (if e.log.Settled? then SettledIn(w)(SettlementOf(t, e.log)) else 0)
            && b.assetReturned == a.assetReturned + (if e.log.Settled? then AssetsIn(w)(SettlementOf(t, e.log)) else 0)
            && b.assignedUsdg == a.assignedUsdg + (if e.log.Settled? then StrikeIn(w)(SettlementOf(t, e.log)) else 0)
  {
    LegalFindsWeek(t, g, e);
    WeekRowMoves(t, g, e, w);
    hide WeeksAfter, MarketAfter, AccountsAfter, LegalMarketLog, PositionLaw;
  }

  lemma WeekRowsKept(t: MarketDb, g: FactoryBooks, e: MarketEvent, w: nat)
    requires PositionLaw(t, g) && LegalMarketEvent(g, e) && WeekOnRows(t, w)
    ensures WeekOnRows(ReduceMarket(t, e.id, e.log), w)
  {
    Unseen(t, g, e);
    WeekColumns(t, g, e, w);
    hide PositionLaw, LegalMarketEvent, FillOf, SettlementOf, WeeksAfter, MarketAfter, AccountsAfter;
    if e.log.Settled? {
      SettlementMovesWeek(t, e, w);
    } else if e.log.LotFilled? {
      FillMovesWeek(t, e, w);
    }
  }

  // What a legal log moves on and off the book of one week, against the row it appends.
  lemma BookColumns(t: MarketDb, g: FactoryBooks, e: MarketEvent, w: nat)
    requires PositionLaw(t, g) && LegalMarketEvent(g, e) && AccountTouched(t, e.log).Some?
    ensures var a := AccountOf(t, AccountTouched(t, e.log).value);
            var b := AccountAfter(a, e.log);
            var l := e.log.LotsListed? && e.log.weekId == w;
            && ListingIn(w)(b) - ListingIn(w)(a) == (if l then 1 else 0) - (if e.log.Settled? then SettledIn(w)(SettlementOf(t, e.log)) else 0)
            && LotsOnBook(w)(b) - LotsOnBook(w)(a)
               == (if l then e.log.lots else 0) - (if e.log.Settled? then LotsSettledIn(w)(SettlementOf(t, e.log)) else 0)
            && FillsOnBook(w)(b) - FillsOnBook(w)(a)
               == (if e.log.LotFilled? then FilledIn(w)(FillOf(t, e.log)) else 0)
                  - (if e.log.Settled? then FillsSettledIn(w)(SettlementOf(t, e.log)) else 0)
  {
    var account := AccountTouched(t, e.log).value;
    if account in g.positions {
      assert Stands(t.accounts[account], g.positions[account], g.week);
    }
  }

  lemma SettlementKeepsBook(t: MarketDb, g: FactoryBooks, e: MarketEvent, w: nat)
    requires PositionLaw(t, g) && LegalMarketEvent(g, e) && WeekOnBook(t, w) && e.log.Settled?
    ensures WeekOnBook(ReduceMarket(t, e.id, e.log), w)
  {
    Unseen(t, g, e);
    WeekColumns(t, g, e, w);
    AccountMovesWeek(t, e.log, w);
    BookColumns(t, g, e, w);
    SettlementMovesWeek(t, e, w);
    hide PositionLaw, LegalMarketEvent, SettlementOf, WeeksAfter, MarketAfter, AccountAfter, AccountsAfter, SettlementsAfter;
    hide ListingIn, LotsOnBook, FillsOnBook, SettledIn, LotsSettledIn, FillsSettledIn;
  }

  // Listings, fills and every log that is not a settlement leave the settlement rows alone.
  lemma ListingKeepsBook(t: MarketDb, g: FactoryBooks, e: MarketEvent, w: nat)
    requires PositionLaw(t, g) && LegalMarketEvent(g, e) && WeekOnBook(t, w)
    requires !e.log.Settled? && AccountTouched(t, e.log).Some?
    ensures WeekOnBook(ReduceMarket(t, e.id, e.log), w)
  {
    WeekColumns(t, g, e, w);
    AccountMovesWeek(t, e.log, w);
    BookColumns(t, g, e, w);
    hide PositionLaw, LegalMarketEvent, FillOf, WeeksAfter, MarketAfter, AccountAfter, AccountTouched, AccountsAfter;
    hide ListingIn, LotsOnBook, FillsOnBook, LotsSettledIn, FillsSettledIn, FilledIn;
  }

  lemma WeekBookKept(t: MarketDb, g: FactoryBooks, e: MarketEvent, w: nat)
    requires PositionLaw(t, g) && LegalMarketEvent(g, e) && WeekOnBook(t, w)
    ensures WeekOnBook(ReduceMarket(t, e.id, e.log), w)
  {
    if e.log.Settled? {
      SettlementKeepsBook(t, g, e, w);
    } else if AccountTouched(t, e.log).Some? {
      ListingKeepsBook(t, g, e, w);
    } else {
      Untouched(t, g, e);
      WeekColumns(t, g, e, w);
    }
  }

  lemma Untouched(t: MarketDb, g: FactoryBooks, e: MarketEvent)
    requires PositionLaw(t, g) && LegalMarketEvent(g, e) && AccountTouched(t, e.log) == None
    ensures e.log.WeekSet? && AccountsAfter(t, e.log) == t.accounts
  {
  }

  // ---------------------------------------------------------------- the verdict of each settlement

  // Nothing written returns nothing and reads unfilled; a written lot reads by what its redeem returned.
  predicate Judged(r: SettlementRow, week: nat) {
    && r.weekId.Some? && 1 <= r.weekId.value <= week && r.lotsFilled <= r.lotsListed
    && (r.outcome == Unfilled <==> r.lotsFilled == 0)
    && (r.outcome == Unfilled ==> r.assetReturned == 0 && r.strikeUsdg == 0)
    && (r.outcome == Assigned <==> r.strikeUsdg > 0)
    && (r.outcome == Unredeemed <==> 0 < r.lotsFilled && r.assetReturned == 0 && r.strikeUsdg == 0)
  }

  ghost predicate VerdictLaw(settlements: map<EventId, SettlementRow>, week: nat) {
    forall id :: id in settlements ==> Judged(settlements[id], week)
  }

  lemma VerdictKept(t: MarketDb, g: FactoryBooks, e: MarketEvent)
    requires PositionLaw(t, g) && LegalMarketEvent(g, e) && VerdictLaw(t.settlements, g.week)
    ensures VerdictLaw(SettlementsAfter(t, e.id, e.log), NextBooks(g, e).week)
  {
    if e.log.Settled? {
      assert Stands(t.accounts[e.log.account], g.positions[e.log.account], g.week);
    }
  }

  // ---------------------------------------------------------------- whole runs

  ghost predicate LedgerLaw(t: MarketDb, g: FactoryBooks) {
    && PositionLaw(t, g)
    && (forall account: nat :: AccountAddsUp(t, account))
    && (forall w: nat :: WeekOnBook(t, w))
    && (forall w: nat :: WeekOnRows(t, w))
    && VerdictLaw(t.settlements, g.week)
  }

  lemma LedgerAtStart()
    ensures LedgerLaw(EMPTY_MARKET, NO_ACCOUNTS)
  {
  }

  lemma LedgerKept(t: MarketDb, g: FactoryBooks, e: MarketEvent)
    requires LedgerLaw(t, g) && LegalMarketEvent(g, e)
    ensures LedgerLaw(ReduceMarket(t, e.id, e.log), NextBooks(g, e))
  {
    hide AccountAddsUp, WeekOnBook, WeekOnRows, SettlementsAfter, NextBooks, PositionLaw, LegalMarketEvent, VerdictLaw;
    PositionKept(t, g, e);
    VerdictKept(t, g, e);
    var u := ReduceMarket(t, e.id, e.log);
    forall account: nat ensures AccountAddsUp(u, account) {
      AccountKept(t, g, e, account);
    }
    forall w: nat ensures WeekOnBook(u, w) {
      WeekBookKept(t, g, e, w);
    }
    forall w: nat ensures WeekOnRows(u, w) {
      WeekRowsKept(t, g, e, w);
    }
  }

  lemma {:induction false} EveryMarketRun(run: seq<MarketEvent>)
    requires LegalMarketRun(run)
    ensures LedgerLaw(MarketTape(run), BooksAfter(run)) && AllFindTheirWeeks(run)
  {
    hide LedgerLaw;
    if run == [] {
      LedgerAtStart();
    } else {
      var n := |run| - 1;
      EveryMarketRun(run[..n]);
      LedgerKept(MarketTape(run[..n]), BooksAfter(run[..n]), run[n]);
      PositionOf(MarketTape(run[..n]), BooksAfter(run[..n]));
      LegalFindsWeek(MarketTape(run[..n]), BooksAfter(run[..n]), run[n]);
    }
  }

  lemma PositionOf(t: MarketDb, g: FactoryBooks)
    requires LedgerLaw(t, g)
    ensures PositionLaw(t, g)
  {
  }
}
