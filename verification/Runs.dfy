// Whole runs. A run is any sequence of logs the contracts may emit, from the deploy on, in any
// batching of entry points into transactions; the theorems hold after every prefix of every run.
module Runs {
  import opened Common
  import opened Sums
  import opened Lifecycle
  import opened Rows
  import opened Logs
  import opened Reducers
  import opened Chain
  import opened PhaseMirror
  import opened QueueMirror
  import opened StrandLedger
  import opened ReserveLedger
  import opened ShareLedger
  import opened SalesLedger
  import opened CycleLedger
  import opened MoneyLedger
  import opened WeekLedger
  import opened OriginLedger
  import opened FlowLedger
  import opened DrainLedger

  function TapeOf(run: seq<Emission>): Db {
    if run == [] then EMPTY_DB
    else var last := run[|run| - 1]; Reduce(TapeOf(run[..|run| - 1]), last.tx, last.log)
  }

  function BooksOf(run: seq<Emission>): Books {
    if run == [] then GENESIS else Next(BooksOf(run[..|run| - 1]), run[|run| - 1])
  }

  predicate LegalRun(run: seq<Emission>) {
    run == [] || (LegalRun(run[..|run| - 1]) && Legal(BooksOf(run[..|run| - 1]), run[|run| - 1]))
  }

  lemma {:induction false} LastTape(run: seq<Emission>, e: Emission)
    ensures TapeOf(run + [e]) == Reduce(TapeOf(run), e.tx, e.log)
  {
    hide Reduce;
    assert (run + [e])[..|run|] == run;
  }

  // ---------------------------------------------------------------- the invariant

  ghost predicate Holds(t: Db, g: Books) {
    && PhaseLaw(t, g) && QueueLaw(t, g) && WadLaw(t, g) && ReserveLaw(t, g) && ShareLaw(t, g)
    && SalesLaw(t, g) && CycleLaw(t, g) && MoneyLaw(t, g) && WeekLaw(t, g)
    && OriginLaw(t.harvests, g.truth) && DateLaw(t.epochs, g.queue, g.truth)
    && FlowLaw(t) && DrainLaw(t.epochs)
  }

  lemma QueueAtGenesis()
    ensures PhaseLaw(EMPTY_DB, GENESIS) && QueueLaw(EMPTY_DB, GENESIS) && ShareLaw(EMPTY_DB, GENESIS)
  {
  }

  lemma StrandsAtGenesis()
    ensures WadLaw(EMPTY_DB, GENESIS) && ReserveLaw(EMPTY_DB, GENESIS)
  {
  }

  lemma NothingYet<K, V>(m: map<K, V>, column: V -> int)
    requires m == map[]
    ensures Sum(m, column) == 0
  {
  }

  lemma FlowAtGenesis()
    ensures FlowLaw(EMPTY_DB)
  {
    hide SettledOn, RecoveredOn, RedeemedOn, Sum;
    forall leg: Leg ensures FlowOn(EMPTY_DB, leg) {
      NothingYet(EMPTY_DB.epochs, SettledOn(leg));
      NothingYet(EMPTY_DB.strands, RecoveredOn(leg));
      NothingYet(EMPTY_DB.users, RedeemedOn(leg));
    }
  }

  lemma DrainedAtGenesis()
    ensures DrainLaw(EMPTY_DB.epochs)
  {
    assert EMPTY_DB.epochs == map[];
  }

  lemma SalesAtGenesis()
    ensures SalesLaw(EMPTY_DB, GENESIS)
  {
    assert forall n: nat :: CycleOf(EMPTY_DB, n) == BARE_CYCLE;
  }

  lemma CyclesAtGenesis()
    ensures CycleLaw(EMPTY_DB, GENESIS) && WeekLaw(EMPTY_DB, GENESIS)
  {
  }

  lemma BareAtGenesis()
    ensures forall n: nat :: CycleOf(EMPTY_DB, n) == BARE_CYCLE && InWeek(GENESIS.truth.clamps, n) == 0
    ensures RowAdds(BARE_CYCLE, 0)
  {
  }

  lemma LifetimeStarts(y: MoneyColumns, strands: map<nat, Strand>, m: Machine, truth: Truth)
    requires y == MoneyColumns(0, 0, 0, 0, 0, 0, 0, 0, 0) && strands == map[] && m.pending == Rest
    requires truth.leaks == truth.clamps == map[]
    ensures LifetimeLaw(y, strands, m, truth)
  {
    hide Sum, QueuePart, Total;
    NothingYet(strands, QueuePart());
    NothingMisreadYet(truth.leaks);
    NothingMisreadYet(truth.clamps);
  }

  lemma NothingMisreadYet(perWeek: map<nat, nat>)
    requires perWeek == map[]
    ensures Total(perWeek) == 0
  {
    hide Sum, Figure;
    NothingYet(perWeek, Figure());
  }

  lemma MoneyAtGenesis()
    ensures MoneyLaw(EMPTY_DB, GENESIS)
  {
    hide RowAdds, LifetimeLaw, InWeek, CycleOf;
    LifetimeStarts(EMPTY_DB.money, EMPTY_DB.strands, GENESIS.machine, GENESIS.truth);
    BareAtGenesis();
  }

  lemma OriginsAtGenesis()
    ensures OriginLaw(EMPTY_DB.harvests, GENESIS.truth) && DateLaw(EMPTY_DB.epochs, GENESIS.queue, GENESIS.truth)
  {
  }

  lemma HoldsAtGenesis()
    ensures Holds(EMPTY_DB, GENESIS)
  {
    hide PhaseLaw, QueueLaw, WadLaw, ReserveLaw, ShareLaw, SalesLaw, CycleLaw, MoneyLaw, WeekLaw, OriginLaw, DateLaw, FlowLaw, DrainLaw;
    QueueAtGenesis();
    StrandsAtGenesis();
    FlowAtGenesis();
    DrainedAtGenesis();
    SalesAtGenesis();
    CyclesAtGenesis();
    MoneyAtGenesis();
    OriginsAtGenesis();
  }

  lemma Kept(t: Db, g: Books, e: Emission)
    requires Holds(t, g) && Legal(g, e)
    ensures Holds(Reduce(t, e.tx, e.log), Next(g, e))
  {
    hide PhaseLaw, QueueLaw, WadLaw, ReserveLaw, ShareLaw, SalesLaw, CycleLaw, MoneyLaw, WeekLaw, OriginLaw, DateLaw, FlowLaw, DrainLaw;
    hide Legal, WeekAfter, FundsAfter, SupplyAfter, MoneyAfter, TallyAfter, BookAfter, UsersAfter, CyclesAfter, ListingsAfter;
    hide EpochsAfter, StrandsAfter, HarvestsAfter, NextMachine, NextOrders, NextTokens, NextQueue, NextTxs, NextTruth;
    PhaseKept(t, g, e);
    QueueKept(t, g, e);
    WadKept(t, g, e);
    ReserveKept(t, g, e);
    ShareKept(t, g, e);
    SalesKept(t, g, e);
    CycleKept(t, g, e);
    MoneyKept(t, g, e);
    WeekKept(t, g, e);
    OriginKept(t, g, e);
    DateKept(t, g, e);
    FlowKept(t, g, e);
    DrainKept(t, g, e);
  }

  // Every law holds after every legal run.
  lemma {:induction false} EveryRun(run: seq<Emission>)
    requires LegalRun(run)
    ensures Holds(TapeOf(run), BooksOf(run))
  {
    if run == [] {
      HoldsAtGenesis();
    } else {
      var n := |run| - 1;
      EveryRun(run[..n]);
      Kept(TapeOf(run[..n]), BooksOf(run[..n]), run[n]);
    }
  }
}
