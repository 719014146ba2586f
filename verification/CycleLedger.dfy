// The cycle ledger: after every log of every legal run every week's row carries exactly the verdict
// its own figures call for, and the vault's cycle counters count those rows.
module CycleLedger {
  import opened Common
  import opened Sums
  import opened Lifecycle
  import opened Harvest
  import opened Rows
  import opened Logs
  import opened Reducers
  import opened Chain
  import opened PhaseMirror
  import opened SalesLedger

  // ---------------------------------------------------------------- what each row must say

  // A week is decided once its terminal harvest has run: every past week, and the last one while Idle.
  predicate Decided(n: nat, m: Machine) {
    1 <= n && (n < m.cycle || (n == m.cycle && m.phase == Phase.Idle))
  }

  function Verdict(c: Cycle, n: nat, m: Machine): CycleStatus {
    if !Decided(n, m) then if c.contractsSold > 0 then CycleStatus.Filled else CycleStatus.Listed
    else if m.Stranded() && n == m.cycle then CycleStatus.Stranded
    else if c.contractsAssigned > 0 then CycleStatus.Assigned
    else if c.contractsWritten > 0 then CycleStatus.Closed
    else CycleStatus.Unfilled
  }

  predicate RowDecided(c: Cycle, n: nat, m: Machine) {
    && c.harvested == Decided(n, m)
    && c.status == Verdict(c, n, m)
  }

  // ---------------------------------------------------------------- what the counters count

  function UnfilledWeek(): Cycle -> int { (c: Cycle) => if c.status == CycleStatus.Unfilled then 1 else 0 }

  function FilledWeek(): Cycle -> int { (c: Cycle) => if c.harvested && c.contractsWritten > 0 then 1 else 0 }

  function AssignedWeek(): Cycle -> int { (c: Cycle) => if c.harvested && c.contractsAssigned > 0 then 1 else 0 }

  ghost predicate Tallies(y: TallyColumns, cycles: map<nat, Cycle>, m: Machine) {
    && y.cyclesWritten == m.cycle
    && y.cyclesWritten == y.cyclesFilled + y.cyclesUnfilled + (if m.phase == Phase.Idle then 0 else 1)
    && y.cyclesUnfilled == Sum(cycles, UnfilledWeek())
    && y.cyclesFilled == Sum(cycles, FilledWeek())
    && y.cyclesAssigned == Sum(cycles, AssignedWeek())
    && y.cyclesStranded == m.gen
  }

  ghost predicate CycleLaw(t: Db, g: Books) {
    && (forall n: nat :: n in t.cycles ==> RowDecided(t.cycles[n], n, g.machine))
    && Tallies(t.tally, t.cycles, g.machine)
  }

  // ---------------------------------------------------------------- the rows kept

  // Rows of past weeks keep their verdict whatever the machine does next.
  lemma PastKept(g: Books, e: Emission, c: Cycle, n: nat)
    requires MachineOk(g.machine) && Legal(g, e) && 1 <= n <= g.machine.cycle && RowDecided(c, n, g.machine)
    requires n < g.machine.cycle || e.log.RollOpen?
    ensures RowDecided(c, n, NextMachine(g.machine, e.log))
  {
  }

  // The current row under a log that changes neither its sales, its status nor whether it is decided.
  predicate Decides(log: Log) {
    log.RollOpen? || log.CallsWritten? || log.OrderFulfilled? || log.ClaimStranded? || log.RollClose?
    || log.StrandedClaimRecovered? || log.Harvest?
  }

  lemma UndecidingKept(t: Db, g: Books, e: Emission, c: Cycle)
    requires MachineOk(g.machine) && Legal(g, e) && !Decides(e.log) && RowDecided(c, g.machine.cycle, g.machine)
    ensures RowDecided(c, g.machine.cycle, NextMachine(g.machine, e.log))
    ensures RowDecided(CycleRowAfter(t, e.tx, e.log, c), g.machine.cycle, NextMachine(g.machine, e.log))
  {
  }

  lemma SweptDecided(m: Machine, c: Cycle, h: HarvestEvent, origin: HarvestOrigin)
    requires MachineOk(m) && RowDecided(c, m.cycle, m) && CycleSells(c, m.cycle, m) && 1 <= m.cycle
    requires m.pending.Closing? <==> origin == HarvestOrigin.RollClose
    requires m.pending.Closing? || m.pending.Recovered? || m.pending == Rest
    ensures RowDecided(Swept(c, h, origin, m.Stranded()), m.cycle,
                       m.(phase := if m.pending.Closing? then Phase.Idle else m.phase, pending := Rest))
  {
  }

  lemma HarvestDecides(t: Db, g: Books, e: Emission, c: Cycle)
    requires PhaseLaw(t, g) && Legal(g, e) && e.log.Harvest? && 1 <= g.machine.cycle
    requires RowDecided(c, g.machine.cycle, g.machine) && CycleSells(c, g.machine.cycle, g.machine)
    ensures RowDecided(CycleRowAfter(t, e.tx, e.log, c), g.machine.cycle, NextMachine(g.machine, e.log))
  {
    OriginExact(t, g, e);
    SweptDecided(g.machine, c, HarvestEventOf(t, e.tx, e.log.cycleNumber, e.log.gross, e.log.fee, e.log.net), OriginIn(t, e.tx));
  }

  // The current row under a fill, a close, a strand or a recovery.
  lemma RowDecides(t: Db, g: Books, e: Emission, c: Cycle)
    requires MachineOk(g.machine) && Legal(g, e) && Decides(e.log) && !e.log.Harvest? && !e.log.RollOpen?
    requires 1 <= g.machine.cycle && (e.log.OrderFulfilled? ==> e.log.offerer == Vault)
    requires RowDecided(c, g.machine.cycle, g.machine) && CycleSells(c, g.machine.cycle, g.machine) && ClaimMirrors(c, g.machine)
    ensures RowDecided(CycleRowAfter(t, e.tx, e.log, c), g.machine.cycle, NextMachine(g.machine, e.log))
  {
  }

  lemma DecidingKept(t: Db, g: Books, e: Emission)
    requires PhaseLaw(t, g) && SalesLaw(t, g) && CycleLaw(t, g) && Legal(g, e) && Decides(e.log)
    requires CycleTouched(t, e.log).Some?
    ensures var n := NextMachine(g.machine, e.log).cycle;
            RowDecided(CycleRowAfter(t, e.tx, e.log, CycleOf(t, n)), n, NextMachine(g.machine, e.log))
  {
    hide LegalLog, CycleRowAfter, Decides, RowDecided, Tallies, ListingSums;
    TouchesCurrent(t, g, e);
    var n := NextMachine(g.machine, e.log).cycle;
    if e.log.RollOpen? {
      NewWeekDecided(t, g, e);
    } else {
      assert CycleSells(CycleOf(t, n), n, g.machine);
      assert RowDecided(t.cycles[n], n, g.machine);
      if e.log.Harvest? {
        HarvestDecides(t, g, e, t.cycles[n]);
      } else {
        RowDecides(t, g, e, t.cycles[n]);
      }
    }
  }

  // The roll opens a row nothing is decided about yet.
  lemma NewWeekDecided(t: Db, g: Books, e: Emission)
    requires SalesLaw(t, g) && Legal(g, e) && e.log.RollOpen?
    ensures var n := NextMachine(g.machine, e.log).cycle;
            RowDecided(CycleRowAfter(t, e.tx, e.log, CycleOf(t, n)), n, NextMachine(g.machine, e.log))
  {
  }

  // A log that touches no cycle row decides nothing either.
  lemma UntouchedKept(t: Db, g: Books, e: Emission)
    requires PhaseLaw(t, g) && SalesLaw(t, g) && Legal(g, e) && Decides(e.log)
    ensures CycleTouched(t, e.log) == None ==> (e.log.OrderFulfilled? && e.log.offerer != Vault)
                                               || (e.log.Harvest? && g.machine.cycle == 0)
  {
  }

  lemma RowsKept(t: Db, g: Books, e: Emission)
    requires PhaseLaw(t, g) && SalesLaw(t, g) && CycleLaw(t, g) && Legal(g, e)
    ensures var after := CyclesAfter(t, e.tx, e.log);
            forall n: nat :: n in after ==> RowDecided(after[n], n, NextMachine(g.machine, e.log))
  {
    hide LegalLog, CycleRowAfter, RowDecided, Tallies, ListingSums;
    var m, after := NextMachine(g.machine, e.log), CyclesAfter(t, e.tx, e.log);
    TouchesCurrent(t, g, e);
    forall n: nat | n in after ensures RowDecided(after[n], n, m) {
      if CycleTouched(t, e.log) == Some(n) && Decides(e.log) {
        DecidingKept(t, g, e);
      } else if n < g.machine.cycle || e.log.RollOpen? {
        PastKept(g, e, t.cycles[n], n);
      } else if !Decides(e.log) {
        UndecidingKept(t, g, e, t.cycles[n]);
      } else {
        UntouchedKept(t, g, e);
      }
    }
  }

  // ---------------------------------------------------------------- the counters kept

  predicate SameCounts(c: Cycle, d: Cycle) {
    && UnfilledWeek()(d) == UnfilledWeek()(c) && FilledWeek()(d) == FilledWeek()(c) && AssignedWeek()(d) == AssignedWeek()(c)
  }

  // Only the terminal harvest turns a row into one more filled, unfilled or assigned week.
  lemma HarvestCounts(t: Db, g: Books, e: Emission)
    requires PhaseLaw(t, g) && SalesLaw(t, g) && CycleLaw(t, g) && Legal(g, e) && e.log.Harvest? && g.machine.cycle != 0
    ensures var c := CycleOf(t, g.machine.cycle);
            var d := CycleRowAfter(t, e.tx, e.log, c);
            if e.entry == FromRollClose then
              && UnfilledWeek()(c) == FilledWeek()(c) == AssignedWeek()(c) == 0
              && UnfilledWeek()(d) == (if c.contractsWritten > 0 then 0 else 1)
              && FilledWeek()(d) == (if c.contractsWritten > 0 then 1 else 0)
              && AssignedWeek()(d) == (if c.contractsAssigned > 0 then 1 else 0)
            else SameCounts(c, d)
  {
    hide Tallies, ListingSums, SplitHarvest, FeeFree, AddHarvest, LegalTransfer, LegalEntrySettled, LegalFill, LegalRollClose;
    OriginExact(t, g, e);
    assert CycleSells(CycleOf(t, g.machine.cycle), g.machine.cycle, g.machine);
    assert RowDecided(t.cycles[g.machine.cycle], g.machine.cycle, g.machine);
  }

  lemma OtherCounts(t: Db, g: Books, e: Emission, c: Cycle)
    requires MachineOk(g.machine) && Legal(g, e) && !e.log.Harvest? && !e.log.RollOpen?
    requires e.log.OrderFulfilled? ==> e.log.offerer == Vault
    requires CycleSells(c, g.machine.cycle, g.machine) && RowDecided(c, g.machine.cycle, g.machine)
    ensures SameCounts(c, CycleRowAfter(t, e.tx, e.log, c))
  {
  }

  lemma NewWeekCounts(t: Db, g: Books, e: Emission)
    requires SalesLaw(t, g) && Legal(g, e) && CycleTouched(t, e.log).Some?
    requires CycleTouched(t, e.log).value == NextMachine(g.machine, e.log).cycle >= 1 && CycleTouched(t, e.log).value !in t.cycles
    ensures SameCounts(BARE_CYCLE, CycleRowAfter(t, e.tx, e.log, BARE_CYCLE))
  {
  }

  // One touched row moves each count by that row's difference.
  lemma CountsMove(t: Db, tx: Hash, log: Log, n: nat)
    requires CycleTouched(t, log) == Some(n)
    ensures var c := CycleOf(t, n);
            var d := CycleRowAfter(t, tx, log, c);
            var after := CyclesAfter(t, tx, log);
            && Sum(after, UnfilledWeek()) == Sum(t.cycles, UnfilledWeek()) - UnfilledWeek()(c) + UnfilledWeek()(d)
            && Sum(after, FilledWeek()) == Sum(t.cycles, FilledWeek()) - FilledWeek()(c) + FilledWeek()(d)
            && Sum(after, AssignedWeek()) == Sum(t.cycles, AssignedWeek()) - AssignedWeek()(c) + AssignedWeek()(d)
  {
    var d := CycleRowAfter(t, tx, log, CycleOf(t, n));
    SumPut(t.cycles, n, d, BARE_CYCLE, UnfilledWeek());
    SumPut(t.cycles, n, d, BARE_CYCLE, FilledWeek());
    SumPut(t.cycles, n, d, BARE_CYCLE, AssignedWeek());
  }

  // The counters at a harvest: the terminal one ends the week it names.
  lemma TallyOfHarvest(t: Db, g: Books, e: Emission)
    requires PhaseLaw(t, g) && Legal(g, e) && e.log.Harvest?
    ensures var y, z, c := t.tally, TallyAfter(t, e.tx, e.log), ViewOf(t, g.machine.cycle);
            z == if e.entry != FromRollClose then y
                 else y.(cyclesFilled := y.cyclesFilled + if c.contractsWritten > 0 then 1 else 0,
                         cyclesUnfilled := y.cyclesUnfilled + if c.contractsWritten > 0 then 0 else 1,
                         cyclesAssigned := y.cyclesAssigned + if c.contractsAssigned > 0 then 1 else 0)
    ensures var m, n := g.machine, NextMachine(g.machine, e.log);
            && n.cycle == m.cycle && n.gen == m.gen
            && (if e.entry == FromRollClose then m.phase == Phase.Settling && m.cycle != 0 && n.phase == Phase.Idle else n.phase == m.phase)
    ensures CycleTouched(t, e.log) == if g.machine.cycle == 0 then None else Some(g.machine.cycle)
    ensures CyclesAfter(t, e.tx, e.log) == if g.machine.cycle == 0 then t.cycles
            else t.cycles[g.machine.cycle := CycleRowAfter(t, e.tx, e.log, CycleOf(t, g.machine.cycle))]
  {
    hide CycleRowAfter;
    OriginExact(t, g, e);
  }

  lemma TalliesAtHarvest(t: Db, g: Books, e: Emission)
    requires PhaseLaw(t, g) && SalesLaw(t, g) && CycleLaw(t, g) && Legal(g, e) && e.log.Harvest?
    ensures Tallies(TallyAfter(t, e.tx, e.log), CyclesAfter(t, e.tx, e.log), NextMachine(g.machine, e.log))
  {
    hide CycleRowAfter, ListingSums, LegalLog, SplitHarvest, FeeFree, CyclesAfter;
    OriginExact(t, g, e);
    TallyOfHarvest(t, g, e);
    if g.machine.cycle != 0 {
      HarvestCounts(t, g, e);
      CountsMove(t, e.tx, e.log, g.machine.cycle);
    }
  }

  // The counters' own arithmetic: only the roll and the strand move them outside a harvest.
  lemma CountersElsewhere(t: Db, g: Books, e: Emission)
    requires MachineOk(g.machine) && Legal(g, e) && !e.log.Harvest?
    ensures var m, n, y := g.machine, NextMachine(g.machine, e.log), TallyAfter(t, e.tx, e.log);
            && y.cyclesWritten - t.tally.cyclesWritten == n.cycle - m.cycle
            && y.cyclesWritten - t.tally.cyclesWritten == (if n.phase == Phase.Idle then 0 else 1) - (if m.phase == Phase.Idle then 0 else 1)
            && y.cyclesStranded - t.tally.cyclesStranded == n.gen - m.gen
            && y.cyclesFilled == t.tally.cyclesFilled && y.cyclesUnfilled == t.tally.cyclesUnfilled
            && y.cyclesAssigned == t.tally.cyclesAssigned
  {
  }

  lemma TalliesElsewhere(t: Db, g: Books, e: Emission)
    requires PhaseLaw(t, g) && SalesLaw(t, g) && CycleLaw(t, g) && Legal(g, e) && !e.log.Harvest?
    ensures Tallies(TallyAfter(t, e.tx, e.log), CyclesAfter(t, e.tx, e.log), NextMachine(g.machine, e.log))
  {
    hide LegalLog, CycleRowAfter, TallyAfter, NextMachine, RowDecided, CycleSells, ListingSums, MachineOk, UnfilledWeek, FilledWeek, AssignedWeek, Sum;
    CountersElsewhere(t, g, e);
    if CycleTouched(t, e.log).Some? {
      TouchesCurrent(t, g, e);
      var n := CycleTouched(t, e.log).value;
      CountsMove(t, e.tx, e.log, n);
      if n in t.cycles {
        assert CycleSells(CycleOf(t, n), n, g.machine);
        assert RowDecided(t.cycles[n], n, g.machine);
        if !e.log.RollOpen? {
          OtherCounts(t, g, e, t.cycles[n]);
        }
      } else {
        NewWeekCounts(t, g, e);
      }
    }
  }

  lemma CycleKept(t: Db, g: Books, e: Emission)
    requires PhaseLaw(t, g) && SalesLaw(t, g) && CycleLaw(t, g) && Legal(g, e)
    ensures CycleLaw(Reduce(t, e.tx, e.log), Next(g, e))
  {
    RowsKept(t, g, e);
    if e.log.Harvest? {
      TalliesAtHarvest(t, g, e);
    } else {
      TalliesElsewhere(t, g, e);
    }
  }
}
