// Every published harvest row against the logs: what it sweeps, out of what supply, and what its week had
// written, sold and returned by then; and every week's money columns as totals of its sweeps' own parts.
module HarvestHistory {
  import opened Common
  import opened History
  import opened Lifecycle
  import opened Harvest
  import opened Sums
  import opened Rows
  import opened Logs
  import opened Reducers
  import opened Chain
  import opened PhaseMirror
  import opened ShareLedger
  import opened SalesLedger
  import opened MoneyLedger
  import opened Sweeps
  import opened HarvestLedger
  import opened VaultHistory
  import opened WeekHistory
  import opened Runs
  import opened Theorems

  // ---------------------------------------------------------------- one row

  // The row a harvest adds is that log's, measured against every share there is at that moment: the users'
  // and the vault's escrow. Its fee-free part is the strike USDG just reported, or what an ambiguous
  // checkpoint reads instead.
  lemma {:induction false} HarvestTold(run: seq<Emission>, e: Emission)
    requires LegalRun(run) && Legal(BooksOf(run), e) && e.log.Harvest?
    ensures var t, g := TapeOf(run), BooksOf(run); var rows := TapeOf(run + [e]).harvests;
            && |rows| == |t.harvests| + 1 && rows[..|rows| - 1] == t.harvests
            && var r := rows[|rows| - 1];
               && r.cycleNumber == e.log.cycleNumber == g.machine.cycle
               && r.event.grossUsdg == e.log.gross && r.event.feeUsdg == e.log.fee && r.event.netUsdg == e.log.net
               && r.event.supply == Sum(t.users, SharesOf()) + g.tokens.vaultShares
               && r.event.usdgFromAssignment == (if Ambiguous(g, e) then g.txs.live else StrikeInFlight(g.machine))
               && r.accUsdgPerShare == Or(Latest(run, ShareIndex()), 0)
  {
    hide LegalRun, TapeOf, BooksOf, Latest, Added;
    LastTape(run, e);
    EveryRun(run);
    SettingsRetold(run);
    FeeFreeExact(TapeOf(run), BooksOf(run), e);
    RowOfHarvest(TapeOf(run), BooksOf(run), e);
  }

  lemma RowOfHarvest(t: Db, g: Books, e: Emission)
    requires ShareLaw(t, g) && Legal(g, e) && e.log.Harvest?
    ensures e.log.cycleNumber == g.machine.cycle
    ensures var rows := Reduce(t, e.tx, e.log).harvests;
            && |rows| == |t.harvests| + 1 && rows[..|rows| - 1] == t.harvests
            && var r := rows[|rows| - 1];
               && r.cycleNumber == e.log.cycleNumber
               && r.event.grossUsdg == e.log.gross && r.event.feeUsdg == e.log.fee && r.event.netUsdg == e.log.net
               && r.event.supply == Sum(t.users, SharesOf()) + g.tokens.vaultShares
               && r.event.usdgFromAssignment == FeeFree(t, e.tx, e.log.cycleNumber)
               && r.accUsdgPerShare == t.money.accUsdgPerShare
  {
    hide SplitHarvest, FeeFree, OriginIn, SharesMirror;
  }

  // Its split is its event's: strike proceeds up to what was swept, premium after the fee, and both per-share
  // figures the floors of their amounts over that supply.
  lemma {:induction false} SplitTold(run: seq<Emission>, i: nat)
    requires i < |TapeOf(run).harvests|
    ensures var r := TapeOf(run).harvests[i]; var s, h := r.split, r.event;
            && s.strikeProceeds == StrikePart()(h) && s.premiumGross == h.grossUsdg - s.strikeProceeds
            && s.premiumNet == PremiumPart()(h) >= 0 && s.credited == h.netUsdg
            && (h.supply == 0 ==> s.premiumNetPerShare == s.creditedPerShare == 0)
            && (h.supply > 0 ==>
                  && s.creditedPerShare * h.supply <= h.netUsdg * 1_000_000_000_000_000_000 < (s.creditedPerShare + 1) * h.supply
                  && s.premiumNetPerShare * h.supply <= s.premiumNet * 1_000_000_000_000_000_000 < (s.premiumNetPerShare + 1) * h.supply)
  {
    hide TapeOf, SplitHarvest, PremiumPerShare, CreditPerShare;
    RowsSplitTheirEvents(run, i);
    var h := TapeOf(run).harvests[i].event;
    PartsOfSweep(h);
    PartsPerShare(h);
    if h.supply > 0 {
      FloorPerShare(h.netUsdg, h.supply);
      FloorPerShare(PremiumPart()(h), h.supply);
    }
  }

  lemma FloorPerShare(amount: nat, supply: nat)
    requires 0 < supply
    ensures var each := amount * 1_000_000_000_000_000_000 / supply;
            each * supply <= amount * 1_000_000_000_000_000_000 < (each + 1) * supply
  {
    DivBelow(amount * 1_000_000_000_000_000_000, supply);
  }

  lemma PartsPerShare(h: HarvestEvent)
    ensures h.supply == 0 ==> PremiumPerShare()(h) == CreditPerShare()(h) == 0
    ensures h.supply > 0 ==> PremiumPerShare()(h) == PremiumPart()(h) * 1_000_000_000_000_000_000 / h.supply
    ensures h.supply > 0 ==> CreditPerShare()(h) == h.netUsdg * 1_000_000_000_000_000_000 / h.supply
  {
  }

  lemma {:induction false} RowsSplitTheirEvents(run: seq<Emission>, i: nat)
    requires i < |TapeOf(run).harvests|
    ensures var r := TapeOf(run).harvests[i]; r.split == SplitHarvest(r.event)
  {
    if run != [] {
      hide SplitHarvest, HarvestEventOf, OriginIn;
      var n := |run| - 1;
      if i < |TapeOf(run[..n]).harvests| {
        RowsSplitTheirEvents(run[..n], i);
      }
    }
  }

  // And it says what its week's logs say by then; a harvest before the first week has none.
  lemma {:induction false} HarvestWeekTold(run: seq<Emission>, e: Emission)
    requires LegalRun(run) && Legal(BooksOf(run), e) && e.log.Harvest?
    ensures var rows := TapeOf(run + [e]).harvests; var n := e.log.cycleNumber;
            && |rows| > 0
            && var r, week := rows[|rows| - 1], During(run, n);
               if n == 0 then !r.filled && r.contractsSold == r.contractsAssigned == r.assignmentUsdg == 0
               else
                 && (r.filled <==> Added(week, ContractsWritten()) > 0) && r.contractsSold == Added(week, CallsBought())
                 && r.contractsAssigned == Or(Latest(week, AssignedCount()), 0)
                 && r.assignmentUsdg == Or(Latest(week, Returned()), (0, 0)).1
  {
    hide LegalRun, TapeOf, BooksOf, During, Latest, Added;
    LastTape(run, e);
    RowReadsWeek(TapeOf(run), e);
    if e.log.cycleNumber != 0 {
      WritesRetold(run, e.log.cycleNumber);
      FillsRetold(run, e.log.cycleNumber);
      WeekClosed(run, e.log.cycleNumber);
    }
  }

  lemma RowReadsWeek(t: Db, e: Emission)
    requires e.log.Harvest?
    ensures var rows, n := Reduce(t, e.tx, e.log).harvests, e.log.cycleNumber;
            && |rows| > 0
            && var r, c := rows[|rows| - 1], if n == 0 then BARE_CYCLE else CycleOf(t, n);
               && (r.filled <==> c.contractsWritten > 0) && r.contractsSold == c.contractsSold
               && r.contractsAssigned == c.contractsAssigned && r.assignmentUsdg == c.assignmentUsdg
  {
    hide SplitHarvest, FeeFree, OriginIn;
  }

  // ---------------------------------------------------------------- a week's columns, on any tape

  // A week's eight money columns are totals of its sweeps' own parts, and its supply is the last one's.
  lemma {:induction false} WeekMoneyRetold(run: seq<Emission>, n: nat)
    requires n != 0
    ensures var c, sweeps := CycleOf(TapeOf(run), n), SweepsOf(TapeOf(run).harvests, n);
            && c.totals.harvestGross == Added(sweeps, GrossPart()) && c.totals.fee == Added(sweeps, FeePart())
            && c.totals.strikeProceeds == Added(sweeps, StrikePart())
            && c.totals.harvestPremiumGross == Added(sweeps, GrossPart()) - Added(sweeps, StrikePart())
            && c.totals.premiumNet == Added(sweeps, PremiumPart()) && c.totals.creditedUsdg == Added(sweeps, NetPart())
            && c.totals.premiumNetPerShare == Added(sweeps, PremiumPerShare())
            && c.totals.usdgPerShare == Added(sweeps, CreditPerShare())
            && c.supplyAtHarvest == (if sweeps == [] then 0 else sweeps[|sweeps| - 1].supply)
  {
    hide TapeOf, SweepsOf, Added, SweptBy;
    HarvestRowsRetell(run);
    var rows := TapeOf(run).harvests;
    assert WeekTold(rows, n).totals == CycleOf(TapeOf(run), n).totals;
    ToldBySweeps(rows, n);
    ColumnsOfSweeps(SweepsOf(rows, n));
    SupplyOfLastSweep(run, n);
  }

  lemma {:induction false} SupplyOfLastSweep(run: seq<Emission>, n: nat)
    requires n != 0
    ensures var c, sweeps := CycleOf(TapeOf(run), n), SweepsOf(TapeOf(run).harvests, n);
            c.supplyAtHarvest == if sweeps == [] then 0 else sweeps[|sweeps| - 1].supply
  {
    if run != [] {
      hide TapeOf, Reduce, SweepsOf, CycleOf;
      var k := |run| - 1;
      SupplyOfLastSweep(run[..k], n);
      HarvestRowsRetell(run[..k]);
      assert run == run[..k] + [run[k]];
      LastTape(run[..k], run[k]);
      SupplyStep(TapeOf(run[..k]), run[k], n);
    } else {
      assert TapeOf(run) == EMPTY_DB;
    }
  }

  predicate SupplyTold(c: Cycle, rows: seq<HarvestRow>, n: nat) {
    var sweeps := SweepsOf(rows, n);
    c.supplyAtHarvest == if sweeps == [] then 0 else sweeps[|sweeps| - 1].supply
  }

  lemma SupplyStep(t: Db, e: Emission, n: nat)
    requires HarvestLaw(t) && n != 0 && SupplyTold(CycleOf(t, n), t.harvests, n)
    ensures var u := Reduce(t, e.tx, e.log); SupplyTold(CycleOf(u, n), u.harvests, n)
  {
    hide CycleRowAfter, CycleTouched, HarvestsAfter, HarvestLaw, SupplyTold;
    RowIs(t, e.tx, e.log, n);
    if e.log.Harvest? {
      HarvestMovesSupply(t, e, n);
    } else {
      OtherLogsKeepSupply(t, e.tx, e.log, CycleOf(t, n));
      OtherLogsKeepRows(t, e, CycleOf(t, n), CycleOf(Reduce(t, e.tx, e.log), n), n);
    }
  }

  lemma OtherLogsKeepRows(t: Db, e: Emission, c: Cycle, d: Cycle, n: nat)
    requires !e.log.Harvest? && SupplyTold(c, t.harvests, n) && d.supplyAtHarvest == c.supplyAtHarvest
    ensures SupplyTold(d, HarvestsAfter(t, e.tx, e.log), n)
  {
    hide SweepsOf;
  }

  lemma HarvestMovesSupply(t: Db, e: Emission, n: nat)
    requires HarvestLaw(t) && n != 0 && SupplyTold(CycleOf(t, n), t.harvests, n) && e.log.Harvest?
    ensures SupplyTold(Get(CyclesAfter(t, e.tx, e.log), n, BARE_CYCLE), HarvestsAfter(t, e.tx, e.log), n)
  {
    hide CycleRowAfter, LifetimesAreTotals, SplitHarvest, HarvestEventOf, OriginIn, AddHarvest;
    assert WeekTold(t.harvests, n) == Told(CycleOf(t, n).totals, CycleOf(t, n).harvested);
    var r := HarvestRowOf(t, e.tx, e.log.cycleNumber, e.log.gross, e.log.fee, e.log.net);
    assert (t.harvests + [r])[..|t.harvests|] == t.harvests;
    SweptSupply(t, e.tx, e.log, CycleOf(t, n));
  }

  lemma SweptSupply(t: Db, tx: Hash, log: Log, c: Cycle)
    requires log.Harvest?
    ensures var r := HarvestRowOf(t, tx, log.cycleNumber, log.gross, log.fee, log.net);
            CycleRowAfter(t, tx, log, c).supplyAtHarvest
            == if c.harvested && !r.terminal && r.origin != HarvestOrigin.Retry then c.supplyAtHarvest else r.event.supply
  {
    hide OriginIn, AddHarvest, SplitHarvest, FeeFree;
  }

  lemma OtherLogsKeepSupply(t: Db, tx: Hash, log: Log, c: Cycle)
    requires !log.Harvest?
    ensures CycleRowAfter(t, tx, log, c).supplyAtHarvest == c.supplyAtHarvest
  {
    hide Contracts, ToVault, SafeDiv;
  }
}
