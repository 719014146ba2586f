// The factory's side, as the handlers' comments state it: where each account stands, which log the
// factory or a clone may emit next, and where that leaves the account. The contracts themselves are
// not part of this model; nothing here looks at the index.
module FactoryChain {
  import opened Common
  import opened FactoryLifecycle
  import opened FactoryReducers
  import opened MarketLedger

  // Flat with a request of so many lots (0 for none), or on the book under a pinned week.
  datatype Position = Flat(requested: nat) | OnBook(week: nat, lots: nat, filled: nat)

  datatype FactoryBooks = FactoryBooks(week: nat, positions: map<nat, Position>, seen: set<EventId>)

  const NO_ACCOUNTS := FactoryBooks(0, map[], {})

  // requestWrite reverts while listed, list only from a pending request under the current week, a fill
  // only while a lot is left, settle only a listing, returning nothing when nothing was written.
  predicate LegalMarketLog(g: FactoryBooks, log: MarketLog) {
    match log
    case AccountCreated(_, account, index) => account !in g.positions && index == |g.positions| + 1
    case WeekSet(weekId, _) => weekId == g.week + 1
    case WriteRequested(account, _) => account in g.positions && g.positions[account].Flat?
    case LotsListed(account, weekId, _, lots, _) =>
      && account in g.positions && g.positions[account].Flat? && 0 < g.positions[account].requested
      && weekId == g.week && 1 <= weekId && 0 < lots
    case LotFilled(account, _, _, _) =>
      account in g.positions && g.positions[account].OnBook? && g.positions[account].filled < g.positions[account].lots
    case Settled(account, assets, strikeUsdg) =>
      && account in g.positions && g.positions[account].OnBook?
      && (g.positions[account].filled == 0 ==> assets == 0 && strikeUsdg == 0)
    case _ => log.account in g.positions
  }

  predicate LegalMarketEvent(g: FactoryBooks, e: MarketEvent) {
    e.id !in g.seen && LegalMarketLog(g, e.log)
  }

  function NextPositions(p: map<nat, Position>, log: MarketLog): map<nat, Position> {
    match log
    case AccountCreated(_, account, _) => p[account := Flat(0)]
    case WriteRequested(account, lots) => p[account := Flat(lots)]
    case LotsListed(account, weekId, _, lots, _) => p[account := OnBook(weekId, lots, 0)]
    case LotFilled(account, _, _, _) =>
      if account in p && p[account].OnBook? then p[account := p[account].(filled := p[account].filled + 1)] else p
    case Settled(account, _, _) => p[account := Flat(0)]
    case _ => p
  }

  function NextBooks(g: FactoryBooks, e: MarketEvent): FactoryBooks {
    FactoryBooks(if e.log.WeekSet? then e.log.weekId else g.week, NextPositions(g.positions, e.log), g.seen + {e.id})
  }

  function BooksAfter(run: seq<MarketEvent>): FactoryBooks {
    if run == [] then NO_ACCOUNTS else NextBooks(BooksAfter(run[..|run| - 1]), run[|run| - 1])
  }

  predicate LegalMarketRun(run: seq<MarketEvent>) {
    run == [] || (LegalMarketRun(run[..|run| - 1]) && LegalMarketEvent(BooksAfter(run[..|run| - 1]), run[|run| - 1]))
  }
}
