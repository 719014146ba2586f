// Conservation of the redeem queue's money, from the published tables alone: after every log of
// every legal run, on each leg, what settlements and recovered claims put into the reserve is what
// is still in it, what redeemers were paid, and what haircuts wrote off.
module FlowLedger {
  import opened Common
  import opened Sums
  import opened Lifecycle
  import opened Rows
  import opened Logs
  import opened Reducers
  import opened Chain
  import opened PhaseMirror
  import opened QueueMirror
  import opened StrandLedger
  import opened ReserveLedger
  import opened TableSums

  function SettledOn(leg: Leg): Epoch -> int {
    match leg case StockLeg => (ep: Epoch) => ep.assetsSettled case UsdgLeg => (ep: Epoch) => ep.usdgSettled
  }

  // The queue's part of a recovered claim.
  function RecoveredOn(leg: Leg): Strand -> int {
    match leg
    case StockLeg => (s: Strand) => if s.recovered then s.assetsIn * s.queueWad / 1_000_000_000_000_000_000 else 0
    case UsdgLeg => (s: Strand) => if s.recovered then s.usdgIn * s.queueWad / 1_000_000_000_000_000_000 else 0
  }

  function RedeemedOn(leg: Leg): User -> int {
    match leg case StockLeg => (u: User) => u.redeemedAssets case UsdgLeg => (u: User) => u.redeemedUsdg
  }

  // Only the Stock Token leg takes haircuts.
  function WrittenOff(f: FundColumns, leg: Leg): nat {
    match leg case StockLeg => f.lifetimeHaircutAssets case UsdgLeg => 0
  }

  ghost function PaidIn(epochs: map<nat, Epoch>, strands: map<nat, Strand>, leg: Leg): int {
    Sum(epochs, SettledOn(leg)) + Sum(strands, RecoveredOn(leg))
  }

  ghost predicate FlowOn(t: Db, leg: Leg) {
    PaidIn(t.epochs, t.strands, leg) == Reserve(t.funds, leg) + Sum(t.users, RedeemedOn(leg)) + WrittenOff(t.funds, leg)
  }

  ghost predicate FlowLaw(t: Db) {
    FlowOn(t, StockLeg) && FlowOn(t, UsdgLeg)
  }

  // ---------------------------------------------------------------- each table's total

  function PaidOut(log: Log, leg: Leg): nat {
    if !log.CompleteRedeem? then 0 else if leg.StockLeg? then log.assets else log.usdg
  }

  lemma PaidOutOfRow(t: Db, log: Log, u: User, leg: Leg)
    ensures RedeemedOn(leg)(UserAfter(t, log, u)) == RedeemedOn(leg)(u) + PaidOut(log, leg)
  {
  }

  lemma PaidOutMoves(t: Db, log: Log, leg: Leg)
    ensures Sum(UsersAfter(t, log), RedeemedOn(leg)) == Sum(t.users, RedeemedOn(leg)) + PaidOut(log, leg)
  {
    hide UserAfter;
    if log.Transfer? {
      if log.value != 0 {
        TransferMovesColumn(t, log, RedeemedOn(leg));
      }
    } else if OwnerOf(log).Some? {
      var a := OwnerOf(log).value;
      PaidOutOfRow(t, log, UserOf(t, a), leg);
      SumPut(t.users, a, UserAfter(t, log, UserOf(t, a)), BARE_USER, RedeemedOn(leg));
    }
  }

  lemma SettledMoves(t: Db, g: Books, e: Emission, leg: Leg)
    requires QueueLaw(t, g) && Legal(g, e)
    ensures Sum(EpochsAfter(t, e.tx, e.log), SettledOn(leg)) - Sum(t.epochs, SettledOn(leg))
         == if e.log.QueueSettled? then (if leg.StockLeg? then e.log.assets else e.log.usdg) else 0
  {
    if e.log.QueueSettled? {
      SettlementMovesColumn(t, e.tx, e.log, SettledOn(leg));
    } else if e.log.QueueRedeem? || e.log.EpochStrandShare? || e.log.QueueEntrySettled? {
      SumPut(t.epochs, e.log.epochId, EpochsAfter(t, e.tx, e.log)[e.log.epochId], BARE_EPOCH, SettledOn(leg));
    }
  }

  lemma RecoveredMoves(t: Db, g: Books, e: Emission, leg: Leg)
    requires PhaseLaw(t, g) && WadLaw(t, g) && Legal(g, e)
    ensures Sum(StrandsAfter(t, e.tx, e.log), RecoveredOn(leg)) - Sum(t.strands, RecoveredOn(leg))
         == if !e.log.StrandedClaimRecovered? then 0
            else QueueCut(if leg.StockLeg? then e.log.assets else e.log.usdg, e.log.queueWad)
  {
    if StrandsAfter(t, e.tx, e.log) != t.strands {
      var gen := e.log.gen;
      if e.log.StrandedClaimRecovered? {
        assert StrandMirrors(t.strands[gen], gen, g.machine, g.queue);
      }
      SumPut(t.strands, gen, StrandsAfter(t, e.tx, e.log)[gen], NEW_STRAND, RecoveredOn(leg));
    }
  }

  function ReserveChange(log: Log, leg: Leg): int {
    match log
    case QueueSettled(_, _, assets, usdg) => if leg.StockLeg? then assets else usdg
    case StrandedClaimRecovered(_, assets, usdg, queueWad) =>
      QueueCut(if leg.StockLeg? then assets else usdg, queueWad)
    case CompleteRedeem(_, assets, usdg) => 0 - if leg.StockLeg? then assets else usdg
    case _ => 0
  }

  // What a log does to the reserve and the write-offs together, nothing saturating.
  lemma ReserveMoves(t: Db, g: Books, e: Emission, leg: Leg)
    requires MachineOk(g.machine) && QueueLaw(t, g) && ReserveLaw(t, g) && Legal(g, e)
    ensures var f := FundsAfter(t, e.log);
            Reserve(f, leg) + WrittenOff(f, leg) == Reserve(t.funds, leg) + WrittenOff(t.funds, leg) + ReserveChange(e.log, leg)
  {
    if e.log.ReserveHaircut? || e.log.CompleteRedeem? {
      OwedFits(t, g, e.log.owner, leg);
    } else if e.log.StrandedClaimRecovered? {
      RecoveryIsCut(e.log.assets, e.log.usdg, e.log.queueWad);
    }
  }

  lemma FlowOnLeg(t: Db, g: Books, e: Emission, leg: Leg)
    requires PhaseLaw(t, g) && QueueLaw(t, g) && WadLaw(t, g) && ReserveLaw(t, g) && FlowOn(t, leg) && Legal(g, e)
    ensures FlowOn(Reduce(t, e.tx, e.log), leg)
  {
    hide FundsAfter, UsersAfter, EpochsAfter, StrandsAfter, Legal, QueueCut, QueueLaw, WadLaw, ReserveLaw, Sum;
    PaidOutMoves(t, e.log, leg);
    SettledMoves(t, g, e, leg);
    RecoveredMoves(t, g, e, leg);
    ReserveMoves(t, g, e, leg);
  }

  lemma FlowKept(t: Db, g: Books, e: Emission)
    requires PhaseLaw(t, g) && QueueLaw(t, g) && WadLaw(t, g) && ReserveLaw(t, g) && FlowLaw(t) && Legal(g, e)
    ensures FlowLaw(Reduce(t, e.tx, e.log))
  {
    FlowOnLeg(t, g, e, StockLeg);
    FlowOnLeg(t, g, e, UsdgLeg);
  }
}
