// Returned principal never reads as premium: after every log of every legal run, the strike
// proceeds the index published plus the queue's part of recovered claims are what the claims
// returned, and each week's columns add up, up to exactly the amounts misread from ambiguous checkpoints
// (Truth.leaks, Truth.clamps).
module MoneyLedger {
  import opened Common
  import opened Sums
  import opened Lifecycle
  import opened Harvest
  import opened Rows
  import opened Logs
  import opened Reducers
  import opened Chain
  import opened PhaseMirror
  import opened StrandLedger
  import opened SalesLedger

  // The queue's part of what a recovered claim returned in USDG; it never passes through a harvest.
  function QueuePart(): Strand -> int {
    (s: Strand) => if s.recovered then s.usdgIn * s.queueWad / 1_000_000_000_000_000_000 else 0
  }

  // Strike USDG reported by the close or the recovery whose Harvest is still to come.
  function StrikeInFlight(m: Machine): nat {
    match m.pending
    case Closing(usdg) => usdg
    case Recovered(live) => live
    case _ => 0
  }

  function Figure(): nat -> int { (x: nat) => x }

  // What was misread in all weeks together, and in one week.
  ghost function Total(perWeek: map<nat, nat>): int { Sum(perWeek, Figure()) }

  function InWeek(perWeek: map<nat, nat>, n: nat): nat { Get(perWeek, n, 0) }

  ghost predicate LifetimeLaw(y: MoneyColumns, strands: map<nat, Strand>, m: Machine, truth: Truth) {
    && y.lifetimeAssignmentUsdg + Total(truth.leaks) == y.lifetimeStrikeProceeds + Sum(strands, QueuePart()) + StrikeInFlight(m)
    && y.lifetimeCreditedUsdg + Total(truth.clamps) == y.lifetimePremiumNet + y.lifetimeStrikeProceeds
  }

  predicate RowAdds(c: Cycle, clamp: nat) {
    && c.totals.creditedUsdg == c.totals.harvestGross - c.totals.fee
    && c.totals.harvestPremiumGross == c.totals.harvestGross - c.totals.strikeProceeds
    && c.totals.harvestGross + clamp == c.totals.premiumNet + c.totals.fee + c.totals.strikeProceeds
  }

  // The equation a reader of the week's columns expects.
  predicate AddsUp(w: HarvestTotals) {
    w.harvestGross == w.premiumNet + w.fee + w.strikeProceeds
  }

  // The closing row carries the strike USDG its terminal harvest is about to sweep.
  predicate ClosingRow(c: Cycle, m: Machine) {
    m.pending.Closing? ==> c.assignmentUsdg == m.pending.usdg
  }

  ghost predicate MoneyLaw(t: Db, g: Books) {
    && LifetimeLaw(t.money, t.strands, g.machine, g.truth)
    && ClosingRow(CycleOf(t, g.machine.cycle), g.machine)
    && (forall n: nat :: RowAdds(CycleOf(t, n), InWeek(g.truth.clamps, n)))
  }

  // ---------------------------------------------------------------- what a harvest reads as strike proceeds

  function TrueFeeFree(m: Machine): nat {
    StrikeInFlight(m)
  }

  // The index reads the fee-free part the vault really passed, except that an ambiguous checkpoint
  // (which passed none) is read as the last recovery's live part.
  lemma FeeFreeExact(t: Db, g: Books, e: Emission)
    requires PhaseLaw(t, g) && ClosingRow(CycleOf(t, g.machine.cycle), g.machine) && Legal(g, e) && e.log.Harvest?
    ensures FeeFree(t, e.tx, e.log.cycleNumber) == if Ambiguous(g, e) then g.txs.live else TrueFeeFree(g.machine)
  {
    OriginExact(t, g, e);
  }

  // A sweep splits with nothing clamped when its fee was charged on what is left after the fee-free part.
  lemma SplitValues(h: HarvestEvent, excess: nat)
    requires 0 <= h.usdgFromAssignment && h.netUsdg == h.grossUsdg - h.feeUsdg
    requires excess == Sub(h.feeUsdg, h.grossUsdg - Min(h.usdgFromAssignment, h.grossUsdg))
    ensures var s := SplitHarvest(h);
            && s.strikeProceeds == Min(h.usdgFromAssignment, h.grossUsdg)
            && s.premiumGross == h.grossUsdg - s.strikeProceeds
            && s.premiumNet + s.strikeProceeds == h.netUsdg + excess
  {
  }

  function EventOf(t: Db, e: Emission): HarvestEvent
    requires e.log.Harvest?
  {
    HarvestEventOf(t, e.tx, e.log.cycleNumber, e.log.gross, e.log.fee, e.log.net)
  }

  // The split of the next harvest, in the contract's terms: the true fee-free part is its strike
  // proceeds, plus what an ambiguous checkpoint leaks; premium and strike proceeds add up to the net.
  lemma SplitExact(t: Db, g: Books, e: Emission)
    requires PhaseLaw(t, g) && ClosingRow(CycleOf(t, g.machine.cycle), g.machine) && Legal(g, e) && e.log.Harvest?
    ensures var s := SplitHarvest(EventOf(t, e));
            && s.strikeProceeds == TrueFeeFree(g.machine) + LeakBy(g, e)
            && s.premiumGross == e.log.gross - s.strikeProceeds
            && s.premiumNet + s.strikeProceeds == e.log.net + ClampBy(g, e)
            && e.log.net == e.log.gross - e.log.fee
  {
    FeeFreeExact(t, g, e);
    HarvestTruth(g, e);
    SplitValues(EventOf(t, e), ClampBy(g, e));
  }

  // The two error terms of a harvest, by the fee-free part the index reads.
  lemma HarvestTruth(g: Books, e: Emission)
    requires MachineOk(g.machine) && Legal(g, e) && e.log.Harvest?
    ensures var feeFree := if Ambiguous(g, e) then g.txs.live else TrueFeeFree(g.machine);
            && LeakBy(g, e) == Min(feeFree, e.log.gross) - TrueFeeFree(g.machine)
            && ClampBy(g, e) == Sub(e.log.fee, e.log.gross - Min(feeFree, e.log.gross))
            && e.log.net == e.log.gross - e.log.fee
            && e.log.cycleNumber == g.machine.cycle && StrikeInFlight(NextMachine(g.machine, e.log)) == 0
  {
  }

  lemma Charged(perWeek: map<nat, nat>, n: nat, more: nat)
    ensures var after := perWeek[n := InWeek(perWeek, n) + more];
            && Total(after) == Total(perWeek) + more
            && (forall k: nat :: InWeek(after, k) == InWeek(perWeek, k) + if k == n then more else 0)
  {
    SumPut<nat, nat>(perWeek, n, InWeek(perWeek, n) + more, 0, Figure());
  }

  // They are charged to the week the harvest names, and to no other.
  lemma MisreadCharged(g: Books, e: Emission)
    requires e.log.Harvest?
    ensures var u := NextTruth(g, e);
            && Total(u.leaks) == Total(g.truth.leaks) + LeakBy(g, e)
            && Total(u.clamps) == Total(g.truth.clamps) + ClampBy(g, e)
            && (forall n: nat :: InWeek(u.leaks, n) == InWeek(g.truth.leaks, n) + if n == e.log.cycleNumber then LeakBy(g, e) else 0)
            && (forall n: nat :: InWeek(u.clamps, n) == InWeek(g.truth.clamps, n) + if n == e.log.cycleNumber then ClampBy(g, e) else 0)
  {
    hide Total;
    if Ambiguous(g, e) {
      Charged(g.truth.leaks, e.log.cycleNumber, LeakBy(g, e));
      Charged(g.truth.clamps, e.log.cycleNumber, ClampBy(g, e));
    }
  }

  // ---------------------------------------------------------------- preservation

  lemma HarvestKeepsLifetime(t: Db, g: Books, e: Emission)
    requires PhaseLaw(t, g) && MoneyLaw(t, g) && Legal(g, e) && e.log.Harvest?
    ensures LifetimeLaw(MoneyAfter(t, e.tx, e.log), StrandsAfter(t, e.tx, e.log), NextMachine(g.machine, e.log), NextTruth(g, e))
  {
    hide LegalLog, NextTruth, NextMachine, Ambiguous, LeakBy, ClampBy, SplitHarvest, MoneyAfter, StrandsAfter, EventOf;
    hide Total, Sum, QueuePart, InWeek, PhaseLaw, RowAdds;
    SplitExact(t, g, e);
    MisreadCharged(g, e);
    SweepPublished(t, g, e);
  }

  // What a harvest adds to the lifetime columns, all of them its own split's; it ends what was in flight.
  lemma SweepPublished(t: Db, g: Books, e: Emission)
    requires PhaseLaw(t, g) && Legal(g, e) && e.log.Harvest?
    ensures var y, s := MoneyAfter(t, e.tx, e.log), SplitHarvest(EventOf(t, e));
            && y.lifetimeStrikeProceeds == t.money.lifetimeStrikeProceeds + s.strikeProceeds
            && y.lifetimePremiumNet == t.money.lifetimePremiumNet + s.premiumNet
            && y.lifetimeCreditedUsdg == t.money.lifetimeCreditedUsdg + e.log.net
            && y.lifetimeAssignmentUsdg == t.money.lifetimeAssignmentUsdg
    ensures StrandsAfter(t, e.tx, e.log) == t.strands
    ensures StrikeInFlight(NextMachine(g.machine, e.log)) == 0
  {
    hide SplitHarvest, FeeFree;
  }

  lemma StrandsKeepQueuePart(t: Db, g: Books, e: Emission)
    requires PhaseLaw(t, g) && WadLaw(t, g) && Legal(g, e) && MovesStrands(e.log)
    ensures Sum(StrandsAfter(t, e.tx, e.log), QueuePart()) - Sum(t.strands, QueuePart())
         == if e.log.StrandedClaimRecovered? then QueueCut(e.log.usdg, e.log.queueWad) else 0
  {
    var gen := e.log.gen;
    if gen in t.strands {
      assert StrandMirrors(t.strands[gen], gen, g.machine, g.queue);
    }
    SumPut(t.strands, gen, StrandsAfter(t, e.tx, e.log)[gen],
           Strand(0, 0, 0, 0, false, None, 0, 0, 0, 0, 0, 0, 0), QueuePart());
  }

  // Outside a harvest only the close and the recovery report strike USDG, and both put it in flight.
  lemma StrikeReported(t: Db, g: Books, e: Emission)
    requires MachineOk(g.machine) && Legal(g, e) && !e.log.Harvest?
    ensures var y := MoneyAfter(t, e.tx, e.log);
            && y.lifetimeStrikeProceeds == t.money.lifetimeStrikeProceeds
            && y.lifetimePremiumNet == t.money.lifetimePremiumNet && y.lifetimeCreditedUsdg == t.money.lifetimeCreditedUsdg
            && y.lifetimeAssignmentUsdg - t.money.lifetimeAssignmentUsdg
               == (if e.log.StrandedClaimRecovered? then QueueCut(e.log.usdg, e.log.queueWad) else 0)
                  + StrikeInFlight(NextMachine(g.machine, e.log)) - StrikeInFlight(g.machine)
    ensures NextTruth(g, e).leaks == g.truth.leaks && NextTruth(g, e).clamps == g.truth.clamps
  {
    if e.log.StrandedClaimRecovered? {
      RecoveryIsCut(e.log.assets, e.log.usdg, e.log.queueWad);
    }
  }

  lemma OtherKeepsLifetime(t: Db, g: Books, e: Emission)
    requires PhaseLaw(t, g) && WadLaw(t, g) && MoneyLaw(t, g) && Legal(g, e) && !e.log.Harvest?
    ensures LifetimeLaw(MoneyAfter(t, e.tx, e.log), StrandsAfter(t, e.tx, e.log), NextMachine(g.machine, e.log), NextTruth(g, e))
  {
    StrikeReported(t, g, e);
    if MovesStrands(e.log) {
      StrandsKeepQueuePart(t, g, e);
    } else {
      StrandsStill(t, g, e);
    }
  }

  lemma RowMoney(t: Db, tx: Hash, log: Log, c: Cycle)
    requires !log.Harvest?
    ensures CycleRowAfter(t, tx, log, c).totals == c.totals
    ensures !log.RollClose? && !log.ClaimRedeemed? && !log.ClearClaimRedeemed? ==>
              CycleRowAfter(t, tx, log, c).assignmentUsdg == c.assignmentUsdg
  {
  }

  // Adding one exactly split sweep to a row that adds up leaves it adding up.
  lemma TotalsAdd(c: Cycle, h: HarvestEvent, origin: HarvestOrigin, stranded: bool, clamp: nat, more: nat)
    requires RowAdds(c, clamp) && (origin == HarvestOrigin.Checkpoint ==> more == 0)
    requires var s := SplitHarvest(h);
             && s.premiumGross == h.grossUsdg - s.strikeProceeds
             && s.premiumNet + s.strikeProceeds == h.netUsdg + more
             && h.netUsdg == h.grossUsdg - h.feeUsdg
    ensures RowAdds(Swept(c, h, origin, stranded), clamp + more)
  {
  }

  lemma SweptRowAdds(t: Db, g: Books, e: Emission, c: Cycle, clamp: nat)
    requires PhaseLaw(t, g) && ClosingRow(CycleOf(t, g.machine.cycle), g.machine) && Legal(g, e) && e.log.Harvest?
    requires RowAdds(c, clamp)
    ensures RowAdds(Swept(c, EventOf(t, e), OriginIn(t, e.tx), t.week.stranded), clamp + ClampBy(g, e))
  {
    SplitExact(t, g, e);
    OriginExact(t, g, e);
    TotalsAdd(c, EventOf(t, e), OriginIn(t, e.tx), t.week.stranded, clamp, ClampBy(g, e));
  }

  // Before the first week nothing is misread: no claim was ever recovered.
  lemma NoWeekNoMisread(t: Db, g: Books, e: Emission)
    requires PhaseLaw(t, g) && g.machine.cycle == 0 && e.log.Harvest?
    ensures LeakBy(g, e) == ClampBy(g, e) == 0
  {
  }

  lemma OtherRowAdds(t: Db, g: Books, e: Emission, c: Cycle, clamp: nat)
    requires !e.log.Harvest? && RowAdds(c, clamp)
    ensures RowAdds(CycleRowAfter(t, e.tx, e.log, c), clamp)
  {
    RowMoney(t, e.tx, e.log, c);
  }

  lemma RowsAdd(t: Db, g: Books, e: Emission, n: nat)
    requires PhaseLaw(t, g) && MoneyLaw(t, g) && Legal(g, e)
    ensures RowAdds(Get(CyclesAfter(t, e.tx, e.log), n, BARE_CYCLE), InWeek(NextTruth(g, e).clamps, n))
  {
    hide LegalLog, NextTruth, NextMachine, Swept, RowAdds, LeakBy, ClampBy, Ambiguous, Total, LifetimeLaw, InWeek, SplitHarvest;
    var clamp := InWeek(g.truth.clamps, n);
    assert RowAdds(CycleOf(t, n), clamp);
    RowIs(t, e.tx, e.log, n);
    if e.log.Harvest? {
      MisreadCharged(g, e);
      HarvestTruth(g, e);
      SweptRowAdds(t, g, e, CycleOf(t, n), clamp);
      if n == 0 && g.machine.cycle == 0 {
        NoWeekNoMisread(t, g, e);
      }
    } else {
      StrikeReported(t, g, e);
      OtherRowAdds(t, g, e, CycleOf(t, n), clamp);
    }
  }

  // Nothing between a close and its harvest rewrites the closing row's figures.
  lemma WhileClosing(g: Books, e: Emission)
    requires MachineOk(g.machine) && Legal(g, e) && !e.log.RollClose? && NextMachine(g.machine, e.log).pending.Closing?
    ensures NextMachine(g.machine, e.log).pending == g.machine.pending
    ensures NextMachine(g.machine, e.log).cycle == g.machine.cycle
    ensures !e.log.Harvest? && !e.log.ClaimRedeemed? && !e.log.ClearClaimRedeemed?
  {
  }

  lemma ClosingRowKept(t: Db, g: Books, e: Emission)
    requires PhaseLaw(t, g) && SalesLaw(t, g) && MoneyLaw(t, g) && Legal(g, e)
    ensures var m := NextMachine(g.machine, e.log); ClosingRow(Get(CyclesAfter(t, e.tx, e.log), m.cycle, BARE_CYCLE), m)
  {
    var m := NextMachine(g.machine, e.log);
    TouchesCurrent(t, g, e);
    if m.pending.Closing? && !e.log.RollClose? {
      WhileClosing(g, e);
      RowMoney(t, e.tx, e.log, CycleOf(t, m.cycle));
    }
  }

  lemma MoneyKept(t: Db, g: Books, e: Emission)
    requires PhaseLaw(t, g) && WadLaw(t, g) && SalesLaw(t, g) && MoneyLaw(t, g) && Legal(g, e)
    ensures MoneyLaw(Reduce(t, e.tx, e.log), Next(g, e))
  {
    if e.log.Harvest? {
      HarvestKeepsLifetime(t, g, e);
    } else {
      OtherKeepsLifetime(t, g, e);
    }
    ClosingRowKept(t, g, e);
    CycleRowsOf(t, e);
    forall n: nat ensures RowAdds(CycleOf(Reduce(t, e.tx, e.log), n), InWeek(Next(g, e).truth.clamps, n)) {
      RowsAdd(t, g, e, n);
    }
  }
  // ---------------------------------------------------------------- where nothing was misread

  // Nothing is misread in all weeks together exactly when nothing is in any.
  lemma {:induction false} TotalZero(perWeek: map<nat, nat>)
    ensures Total(perWeek) == 0 <==> forall n: nat :: InWeek(perWeek, n) == 0
    ensures Total(perWeek) >= 0
  {
    SumNonNegative(perWeek, Figure());
    SumZero(perWeek, Figure());
    if forall n: nat :: InWeek(perWeek, n) == 0 {
      forall n | n in perWeek ensures Figure()(perWeek[n]) == 0 {
        assert InWeek(perWeek, n) == 0;
      }
    }
  }

  lemma RowAddsExactly(c: Cycle, clamp: nat)
    requires RowAdds(c, clamp)
    ensures clamp == 0 <==> AddsUp(c.totals)
  {
  }

  lemma BareRowAdds()
    ensures AddsUp(BARE_CYCLE.totals)
  {
  }

  // No fee was clamped in any week exactly when every published row adds up.
  lemma {:induction false} RowsAddExactly(t: Db, g: Books)
    requires MoneyLaw(t, g)
    ensures Total(g.truth.clamps) == 0 <==> forall n: nat :: n in t.cycles ==> AddsUp(t.cycles[n].totals)
  {
    hide Total, LifetimeLaw, RowAdds, AddsUp, InWeek;
    var clamps := g.truth.clamps;
    TotalZero(clamps);
    forall n: nat ensures InWeek(clamps, n) == 0 <==> (n in t.cycles ==> AddsUp(t.cycles[n].totals)) {
      RowAddsExactly(CycleOf(t, n), InWeek(clamps, n));
      BareRowAdds();
    }
  }
}
