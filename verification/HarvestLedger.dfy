// The published harvest rows against everything summarised from them, for any tape at all, legal or
// not: each week's money columns are its own rows replayed in order, and the lifetime figures and
// the week counters of the vault row are totals of those rows.
module HarvestLedger {
  import opened Common
  import opened History
  import opened Lifecycle
  import opened Harvest
  import opened Rows
  import opened Logs
  import opened Reducers
  import opened Sweeps

  // A week told by its harvest rows alone: they accumulate until the terminal one closes the week,
  // and after that only a retry's does.
  datatype Told = Told(totals: HarvestTotals, closed: bool)

  function WeekTold(rows: seq<HarvestRow>, n: nat): Told {
    if rows == [] then Told(ZERO_TOTALS, false)
    else
      var earlier, r := WeekTold(rows[..|rows| - 1], n), rows[|rows| - 1];
      if r.cycleNumber != n then earlier
      else
        Told(if earlier.closed && !r.terminal && r.origin != HarvestOrigin.Retry then earlier.totals
             else AddHarvest(earlier.totals, r.event),
             earlier.closed || r.terminal)
  }

  // The sweeps a week's columns add up: its rows, less the checkpoints that came after its close.
  function SweepsOf(rows: seq<HarvestRow>, n: nat): seq<HarvestEvent> {
    if rows == [] then []
    else
      var earlier, r := rows[..|rows| - 1], rows[|rows| - 1];
      if r.cycleNumber != n || (WeekTold(earlier, n).closed && !r.terminal && r.origin != HarvestOrigin.Retry)
      then SweepsOf(earlier, n)
      else SweepsOf(earlier, n) + [r.event]
  }

  lemma {:induction false} ToldBySweeps(rows: seq<HarvestRow>, n: nat)
    ensures WeekTold(rows, n).totals == SweptBy(SweepsOf(rows, n))
  {
    if rows != [] {
      var earlier, r := rows[..|rows| - 1], rows[|rows| - 1];
      ToldBySweeps(earlier, n);
      var before := SweepsOf(earlier, n);
      assert (before + [r.event])[..|before|] == before;
    }
  }

  function Fees(): HarvestRow -> int { (r: HarvestRow) => r.event.feeUsdg }

  function PremiumNets(): HarvestRow -> int { (r: HarvestRow) => r.split.premiumNet }

  function Strikes(): HarvestRow -> int { (r: HarvestRow) => r.split.strikeProceeds }

  function Credits(): HarvestRow -> int { (r: HarvestRow) => r.event.netUsdg }

  function FilledVerdicts(): HarvestRow -> int { (r: HarvestRow) => if r.terminal && r.filled then 1 else 0 }

  function UnfilledVerdicts(): HarvestRow -> int { (r: HarvestRow) => if r.terminal && !r.filled then 1 else 0 }

  function AssignedVerdicts(): HarvestRow -> int { (r: HarvestRow) => if r.terminal && r.contractsAssigned > 0 then 1 else 0 }

  ghost predicate WeeksAreTold(cycles: map<nat, Cycle>, rows: seq<HarvestRow>) {
    forall n: nat :: n != 0 ==> var c := Get(cycles, n, BARE_CYCLE); WeekTold(rows, n) == Told(c.totals, c.harvested)
  }

  ghost predicate LifetimesAreTotals(m: MoneyColumns, y: TallyColumns, rows: seq<HarvestRow>) {
    && m.lifetimeProtocolFee == Added(rows, Fees())
    && m.lifetimePremiumNet == Added(rows, PremiumNets())
    && m.lifetimeStrikeProceeds == Added(rows, Strikes())
    && m.lifetimeCreditedUsdg == Added(rows, Credits())
    && y.cyclesFilled == Added(rows, FilledVerdicts())
    && y.cyclesUnfilled == Added(rows, UnfilledVerdicts())
    && y.cyclesAssigned == Added(rows, AssignedVerdicts())
  }

  ghost predicate HarvestLaw(t: Db) {
    WeeksAreTold(t.cycles, t.harvests) && LifetimesAreTotals(t.money, t.tally, t.harvests)
  }

  // ---------------------------------------------------------------- kept by every log

  lemma AppendedTotal(rows: seq<HarvestRow>, r: HarvestRow, column: HarvestRow -> int)
    ensures Added(rows + [r], column) == Added(rows, column) + column(r)
  {
    assert (rows + [r])[..|rows|] == rows;
  }

  lemma LifetimesKept(t: Db, tx: Hash, log: Log)
    requires LifetimesAreTotals(t.money, t.tally, t.harvests)
    ensures LifetimesAreTotals(MoneyAfter(t, tx, log), TallyAfter(t, tx, log), HarvestsAfter(t, tx, log))
  {
    hide OriginIn, HarvestEventOf, SplitHarvest;
    if log.Harvest? {
      var r := HarvestRowOf(t, tx, log.cycleNumber, log.gross, log.fee, log.net);
      HarvestTotalsMove(t.harvests, r);
      assert r.event.feeUsdg == log.fee && r.event.netUsdg == log.net by {
        RowCarriesEvent(t, tx, log.cycleNumber, log.gross, log.fee, log.net);
      }
    }
  }

  lemma RowCarriesEvent(t: Db, tx: Hash, n: nat, gross: nat, fee: nat, net: nat)
    ensures var h := HarvestEventOf(t, tx, n, gross, fee, net); h.grossUsdg == gross && h.feeUsdg == fee && h.netUsdg == net
  {
  }

  lemma HarvestTotalsMove(rows: seq<HarvestRow>, r: HarvestRow)
    ensures Added(rows + [r], Fees()) == Added(rows, Fees()) + r.event.feeUsdg
    ensures Added(rows + [r], PremiumNets()) == Added(rows, PremiumNets()) + r.split.premiumNet
    ensures Added(rows + [r], Strikes()) == Added(rows, Strikes()) + r.split.strikeProceeds
    ensures Added(rows + [r], Credits()) == Added(rows, Credits()) + r.event.netUsdg
    ensures Added(rows + [r], FilledVerdicts()) == Added(rows, FilledVerdicts()) + if r.terminal && r.filled then 1 else 0
    ensures Added(rows + [r], UnfilledVerdicts()) == Added(rows, UnfilledVerdicts()) + if r.terminal && !r.filled then 1 else 0
    ensures Added(rows + [r], AssignedVerdicts())
         == Added(rows, AssignedVerdicts()) + if r.terminal && r.contractsAssigned > 0 then 1 else 0
  {
    AppendedTotal(rows, r, Fees());
    AppendedTotal(rows, r, PremiumNets());
    AppendedTotal(rows, r, Strikes());
    AppendedTotal(rows, r, Credits());
    AppendedTotal(rows, r, FilledVerdicts());
    AppendedTotal(rows, r, UnfilledVerdicts());
    AppendedTotal(rows, r, AssignedVerdicts());
  }

  // Only a harvest moves a week's money or closes it.
  lemma OtherLogsTellNothing(t: Db, tx: Hash, log: Log, c: Cycle)
    requires !log.Harvest?
    ensures var d := CycleRowAfter(t, tx, log, c); d.totals == c.totals && d.harvested == c.harvested
  {
  }

  lemma WeekKeptTold(t: Db, tx: Hash, log: Log, n: nat)
    requires WeeksAreTold(t.cycles, t.harvests) && n != 0
    ensures var c := Get(CyclesAfter(t, tx, log), n, BARE_CYCLE);
            WeekTold(HarvestsAfter(t, tx, log), n) == Told(c.totals, c.harvested)
  {
    hide OriginIn, HarvestEventOf, SplitHarvest, AddHarvest, CycleRowAfter;
    assert WeekTold(t.harvests, n) == Told(CycleOf(t, n).totals, CycleOf(t, n).harvested);
    if log.Harvest? {
      var r := HarvestRowOf(t, tx, log.cycleNumber, log.gross, log.fee, log.net);
      assert (t.harvests + [r])[..|t.harvests|] == t.harvests;
      SweptTold(t, tx, log, CycleOf(t, n));
    } else {
      OtherLogsTellNothing(t, tx, log, CycleOf(t, n));
    }
  }

  lemma SweptTold(t: Db, tx: Hash, log: Log, c: Cycle)
    requires log.Harvest?
    ensures var d := CycleRowAfter(t, tx, log, c);
            var r := HarvestRowOf(t, tx, log.cycleNumber, log.gross, log.fee, log.net);
            && d.harvested == (c.harvested || r.terminal)
            && d.totals == if c.harvested && !r.terminal && r.origin != HarvestOrigin.Retry then c.totals
                           else AddHarvest(c.totals, r.event)
  {
    hide OriginIn, HarvestEventOf, AddHarvest, SplitHarvest;
  }

  lemma HarvestLawKept(t: Db, tx: Hash, log: Log)
    requires HarvestLaw(t)
    ensures HarvestLaw(Reduce(t, tx, log))
  {
    LifetimesKept(t, tx, log);
    var u := Reduce(t, tx, log);
    forall n: nat | n != 0
      ensures var c := Get(u.cycles, n, BARE_CYCLE); WeekTold(u.harvests, n) == Told(c.totals, c.harvested)
    {
      WeekKeptTold(t, tx, log, n);
    }
  }
}
