// Week by week: each decided week's published strike proceeds are exactly what its own claim
// returned to live shares (nothing yet while the claim is stranded, the live part once it is
// recovered), plus what ambiguous checkpoints of that very week leaked into it.
module WeekLedger {
  import opened Common
  import opened Lifecycle
  import opened Harvest
  import opened Rows
  import opened Logs
  import opened Reducers
  import opened Chain
  import opened PhaseMirror
  import opened StrandLedger
  import opened SalesLedger
  import opened CycleLedger
  import opened MoneyLedger

  // What the claim of a week paid to live shares so far.
  function StrikeDue(c: Cycle, strands: map<nat, Strand>): int {
    if !c.harvested then 0
    else match c.strandGen
         case None => c.assignmentUsdg
         case Some(gen) =>
           if gen in strands && strands[gen].recovered then strands[gen].usdgIn - QueuePart()(strands[gen]) else 0
  }

  function LiveInFlight(n: nat, m: Machine): nat {
    if n == m.cycle && m.pending.Recovered? then m.pending.live else 0
  }

  predicate WeekOk(c: Cycle, n: nat, strands: map<nat, Strand>, m: Machine, leak: nat) {
    && (c.strandGen.Some? ==> c.strandGen.value in strands && strands[c.strandGen.value].cycleNumber == n)
    && c.totals.strikeProceeds + LiveInFlight(n, m) == StrikeDue(c, strands) + leak
  }

  // The current week's row names the open claim's generation, and only that.
  predicate CurrentGen(c: Cycle, m: Machine) {
    && (m.phase != Phase.Idle || m.Stranded() ==> c.strandGen == if m.Stranded() then Some(m.gen) else None)
    && (m.pending.Recovered? ==> c.strandGen == Some(m.resolved))
  }

  ghost predicate WeekLaw(t: Db, g: Books) {
    && (forall n: nat :: WeekOk(CycleOf(t, n), n, t.strands, g.machine, InWeek(g.truth.leaks, n)))
    && CurrentGen(CycleOf(t, g.machine.cycle), g.machine)
  }

  // ---------------------------------------------------------------- the open claim's generation

  lemma GenOfMachine(g: Books, e: Emission, c: Cycle)
    requires MachineOk(g.machine) && Legal(g, e) && !e.log.RollOpen? && CurrentGen(c, g.machine)
    ensures CurrentGen(if e.log.ClaimStranded? then c.(strandGen := Some(e.log.gen)) else c, NextMachine(g.machine, e.log))
  {
  }

  lemma GenOfRow(t: Db, tx: Hash, log: Log, c: Cycle)
    ensures CycleRowAfter(t, tx, log, c).strandGen == if log.ClaimStranded? then Some(log.gen) else c.strandGen
  {
  }

  lemma GenKept(t: Db, g: Books, e: Emission)
    requires PhaseLaw(t, g) && SalesLaw(t, g) && WeekLaw(t, g) && Legal(g, e)
    ensures var m := NextMachine(g.machine, e.log);
            CurrentGen(Get(CyclesAfter(t, e.tx, e.log), m.cycle, BARE_CYCLE), m)
  {
    var m := NextMachine(g.machine, e.log);
    TouchesCurrent(t, g, e);
    RowIs(t, e.tx, e.log, m.cycle);
    GenOfRow(t, e.tx, e.log, CycleOf(t, m.cycle));
    if !e.log.RollOpen? {
      GenOfMachine(g, e, CycleOf(t, m.cycle));
    }
  }

  // ---------------------------------------------------------------- logs that move no strike proceeds

  predicate MovesStrike(log: Log) {
    log.Harvest? || log.RollClose? || log.ClaimStranded? || log.ClaimRedeemed? || log.ClearClaimRedeemed?
    || log.StrandedClaimRecovered?
  }

  lemma StillWeek(t: Db, g: Books, e: Emission, c: Cycle)
    requires MachineOk(g.machine) && Legal(g, e) && !MovesStrike(e.log)
    ensures var d := CycleRowAfter(t, e.tx, e.log, c);
            && d.strandGen == c.strandGen && d.totals == c.totals && d.harvested == c.harvested
            && d.assignmentUsdg == c.assignmentUsdg
    ensures forall n: nat :: LiveInFlight(n, NextMachine(g.machine, e.log)) == LiveInFlight(n, g.machine)
    ensures NextTruth(g, e).leaks == g.truth.leaks
  {
  }

  // The strands table keeps every generation's week and recovery, whatever else of it moves.
  lemma StillStrands(t: Db, tx: Hash, log: Log, gen: nat)
    requires gen in t.strands && !log.StrandedClaimRecovered?
    ensures gen in StrandsAfter(t, tx, log)
    ensures var s, r := t.strands[gen], StrandsAfter(t, tx, log)[gen];
            r.cycleNumber == s.cycleNumber && r.recovered == s.recovered && r.usdgIn == s.usdgIn && r.queueWad == s.queueWad
  {
  }

  // The row of week n after the log is still in order.
  ghost predicate WeekAfterOk(t: Db, g: Books, e: Emission, n: nat) {
    WeekOk(Get(CyclesAfter(t, e.tx, e.log), n, BARE_CYCLE), n, StrandsAfter(t, e.tx, e.log),
           NextMachine(g.machine, e.log), InWeek(NextTruth(g, e).leaks, n))
  }

  lemma StillWeekOk(t: Db, g: Books, e: Emission, n: nat)
    requires MachineOk(g.machine) && Legal(g, e) && !MovesStrike(e.log)
    requires WeekOk(CycleOf(t, n), n, t.strands, g.machine, InWeek(g.truth.leaks, n))
    ensures WeekAfterOk(t, g, e, n)
  {
    var c := CycleOf(t, n);
    RowIs(t, e.tx, e.log, n);
    StillWeek(t, g, e, c);
    if c.strandGen.Some? {
      StillStrands(t, e.tx, e.log, c.strandGen.value);
    }
  }

  // ---------------------------------------------------------------- a harvest

  // The machine after a harvest.
  function AfterHarvest(m: Machine): Machine {
    m.(phase := if m.pending.Closing? then Phase.Idle else m.phase, pending := Rest)
  }

  // The current row through one harvest: the terminal one decides it, the retry pays what is in
  // flight, a checkpoint adds nothing unless it leaks.
  lemma HarvestedRowOk(m: Machine, strands: map<nat, Strand>, c: Cycle, origin: HarvestOrigin, h: HarvestEvent, leak: nat, more: nat)
    requires MachineOk(m) && RowDecided(c, m.cycle, m) && CurrentGen(c, m) && ClosingRow(c, m)
    requires WeekOk(c, m.cycle, strands, m, leak) && (origin == HarvestOrigin.Checkpoint ==> more == 0)
    requires m.Stranded() ==> m.gen in strands && !strands[m.gen].recovered
    requires m.pending.Closing? <==> origin == HarvestOrigin.RollClose
    requires m.pending.Recovered? ==> origin == HarvestOrigin.Retry
    requires SplitHarvest(h).strikeProceeds == TrueFeeFree(m) + more
    ensures WeekOk(Swept(c, h, origin, m.Stranded()), m.cycle, strands, AfterHarvest(m), leak + more)
  {
  }

  lemma HarvestWeekCore(t: Db, g: Books, e: Emission)
    requires PhaseLaw(t, g) && SalesLaw(t, g) && WadLaw(t, g) && CycleLaw(t, g) && MoneyLaw(t, g) && WeekLaw(t, g)
    requires Legal(g, e) && e.log.Harvest? && g.machine.cycle != 0
    ensures WeekOk(Swept(CycleOf(t, g.machine.cycle), EventOf(t, e), OriginIn(t, e.tx), t.week.stranded),
                   g.machine.cycle, t.strands, AfterHarvest(g.machine), InWeek(g.truth.leaks, g.machine.cycle) + LeakBy(g, e))
  {
    hide LegalLog, LegalHarvest, LifetimeLaw, Tallies, ListingSums;
    var n := g.machine.cycle;
    var c := CycleOf(t, n);
    assert WeekOk(c, n, t.strands, g.machine, InWeek(g.truth.leaks, n));
    assert RowDecided(t.cycles[n], n, g.machine);
    assert g.machine.Stranded() ==> StrandMirrors(t.strands[g.machine.gen], g.machine.gen, g.machine, g.queue);
    OriginExact(t, g, e);
    SplitExact(t, g, e);
    HarvestedRowOk(g.machine, t.strands, c, OriginIn(t, e.tx), EventOf(t, e), InWeek(g.truth.leaks, n), LeakBy(g, e));
  }

  lemma HarvestWeekOk(t: Db, g: Books, e: Emission)
    requires MachineOk(g.machine) && Legal(g, e) && e.log.Harvest? && g.machine.cycle != 0
    requires WeekOk(Swept(CycleOf(t, g.machine.cycle), EventOf(t, e), OriginIn(t, e.tx), t.week.stranded),
                    g.machine.cycle, t.strands, AfterHarvest(g.machine), InWeek(g.truth.leaks, g.machine.cycle) + LeakBy(g, e))
    ensures WeekAfterOk(t, g, e, g.machine.cycle)
  {
    MisreadCharged(g, e);
  }

  // ---------------------------------------------------------------- a close, a strand, a redeem

  lemma ClosedRowOk(t: Db, g: Books, e: Emission, c: Cycle, leak: nat)
    requires MachineOk(g.machine) && Legal(g, e) && (e.log.RollClose? || e.log.ClaimRedeemed? || e.log.ClearClaimRedeemed?)
    requires RowDecided(c, g.machine.cycle, g.machine) && CurrentGen(c, g.machine) && 1 <= g.machine.cycle
    requires WeekOk(c, g.machine.cycle, t.strands, g.machine, leak)
    ensures WeekOk(c, g.machine.cycle, t.strands, NextMachine(g.machine, e.log), leak)
    ensures WeekOk(CycleRowAfter(t, e.tx, e.log, c), g.machine.cycle, t.strands, NextMachine(g.machine, e.log), leak)
  {
  }

  // There is nothing to close, strand or redeem before the first week.
  lemma WeekHasBegun(g: Books, e: Emission)
    requires MachineOk(g.machine) && Legal(g, e)
    requires e.log.RollClose? || e.log.ClaimRedeemed? || e.log.ClearClaimRedeemed? || e.log.ClaimStranded? || e.log.StrandedClaimRecovered?
    ensures 1 <= g.machine.cycle
  {
  }

  // The machine carries nothing for a week it is not in.
  lemma OtherWeekOk(c: Cycle, n: nat, strands: map<nat, Strand>, m: Machine, next: Machine, leak: nat)
    requires WeekOk(c, n, strands, m, leak) && n != m.cycle && n != next.cycle
    ensures WeekOk(c, n, strands, next, leak)
  {
  }

  lemma CloseWeekOk(t: Db, g: Books, e: Emission, n: nat)
    requires PhaseLaw(t, g) && SalesLaw(t, g) && CycleLaw(t, g) && WeekLaw(t, g)
    requires Legal(g, e) && (e.log.RollClose? || e.log.ClaimRedeemed? || e.log.ClearClaimRedeemed?)
    ensures WeekAfterOk(t, g, e, n)
  {
    hide CycleRowAfter, CycleTouched, LegalLog, WeekOk, LiveInFlight, StrikeDue, RowDecided, MachineOk, NextMachine;
    hide Tallies, ListingSums, InWeek;
    var c := CycleOf(t, n);
    assert WeekOk(c, n, t.strands, g.machine, InWeek(g.truth.leaks, n));
    RowIs(t, e.tx, e.log, n);
    TouchesCurrent(t, g, e);
    if n == g.machine.cycle {
      WeekHasBegun(g, e);
      assert RowDecided(t.cycles[n], n, g.machine);
      ClosedRowOk(t, g, e, c, InWeek(g.truth.leaks, n));
    } else {
      OtherWeekOk(c, n, t.strands, g.machine, NextMachine(g.machine, e.log), InWeek(g.truth.leaks, n));
    }
  }

  lemma StrandWeekOk(t: Db, g: Books, e: Emission, n: nat)
    requires PhaseLaw(t, g) && SalesLaw(t, g) && CycleLaw(t, g) && WeekLaw(t, g) && Legal(g, e) && e.log.ClaimStranded?
    ensures WeekAfterOk(t, g, e, n)
  {
    hide Tallies, ListingSums, InWeek, LegalHarvest, LegalRollClose, LegalTransfer, LegalEntrySettled, LegalFill, CycleSells;
    var c := CycleOf(t, n);
    assert WeekOk(c, n, t.strands, g.machine, InWeek(g.truth.leaks, n));
    RowIs(t, e.tx, e.log, n);
    if n in t.cycles {
      assert RowDecided(t.cycles[n], n, g.machine);
    }
    if c.strandGen.Some? {
      StillStrands(t, e.tx, e.log, c.strandGen.value);
    }
  }

  lemma RecoverWeekOk(t: Db, g: Books, e: Emission, n: nat)
    requires PhaseLaw(t, g) && SalesLaw(t, g) && WadLaw(t, g) && CycleLaw(t, g) && WeekLaw(t, g)
    requires Legal(g, e) && e.log.StrandedClaimRecovered?
    ensures WeekAfterOk(t, g, e, n)
  {
    hide LegalHarvest, LegalRollClose, LegalTransfer, LegalEntrySettled, LegalFill, Tallies, ListingSums, InWeek, CycleSells;
    assert WeekOk(CycleOf(t, n), n, t.strands, g.machine, InWeek(g.truth.leaks, n));
    assert StrandMirrors(t.strands[e.log.gen], e.log.gen, g.machine, g.queue);
    RowIs(t, e.tx, e.log, n);
    RecoveryIsCut(e.log.assets, e.log.usdg, e.log.queueWad);
    if n in t.cycles {
      assert RowDecided(t.cycles[n], n, g.machine);
    }
  }

  lemma WeekKept(t: Db, g: Books, e: Emission)
    requires PhaseLaw(t, g) && SalesLaw(t, g) && WadLaw(t, g) && CycleLaw(t, g) && MoneyLaw(t, g) && WeekLaw(t, g)
    requires Legal(g, e)
    ensures WeekLaw(Reduce(t, e.tx, e.log), Next(g, e))
  {
    GenKept(t, g, e);
    CycleRowsOf(t, e);
    var u, h := Reduce(t, e.tx, e.log), Next(g, e);
    forall n: nat ensures WeekOk(CycleOf(u, n), n, u.strands, h.machine, InWeek(h.truth.leaks, n)) {
      assert WeekOk(CycleOf(t, n), n, t.strands, g.machine, InWeek(g.truth.leaks, n));
      WeekRowKept(t, g, e, n);
    }
  }

  lemma WeekRowKept(t: Db, g: Books, e: Emission, n: nat)
    requires PhaseLaw(t, g) && SalesLaw(t, g) && WadLaw(t, g) && CycleLaw(t, g) && MoneyLaw(t, g) && WeekLaw(t, g)
    requires Legal(g, e)
    ensures WeekAfterOk(t, g, e, n)
  {
    hide LegalLog, CycleRowAfter, WeekOk, WeekAfterOk, Swept, InWeek, LeakBy, NextTruth, LifetimeLaw, Tallies, ListingSums;
    assert WeekOk(CycleOf(t, n), n, t.strands, g.machine, InWeek(g.truth.leaks, n));
    if !MovesStrike(e.log) {
      StillWeekOk(t, g, e, n);
    } else if e.log.ClaimStranded? {
      StrandWeekOk(t, g, e, n);
    } else if e.log.StrandedClaimRecovered? {
      RecoverWeekOk(t, g, e, n);
    } else if !e.log.Harvest? {
      CloseWeekOk(t, g, e, n);
    } else if n == g.machine.cycle && n != 0 {
      HarvestWeekCore(t, g, e);
      HarvestWeekOk(t, g, e);
    } else {
      HarvestElsewhereOk(t, g, e, n);
    }
  }

  lemma HarvestElsewhereOk(t: Db, g: Books, e: Emission, n: nat)
    requires MachineOk(g.machine) && Legal(g, e) && e.log.Harvest? && (n != g.machine.cycle || n == 0) && PhaseLaw(t, g)
    requires WeekOk(CycleOf(t, n), n, t.strands, g.machine, InWeek(g.truth.leaks, n))
    ensures WeekAfterOk(t, g, e, n)
  {
    RowIs(t, e.tx, e.log, n);
    MisreadCharged(g, e);
    if n == g.machine.cycle {
      NoWeekNoMisread(t, g, e);
    }
  }
}
