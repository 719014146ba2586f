// The reserves: after every log of every legal run, what the vault row reserves on each leg is
// exactly what settled epochs, recovered strands and owed balances still have to pay out, so no
// saturating subtraction on a reserve ever saturates.
module ReserveLedger {
  import opened Common
  import opened Sums
  import opened Lifecycle
  import opened Rows
  import opened Logs
  import opened Reducers
  import opened Chain
  import opened PhaseMirror
  import opened QueueMirror
  import opened StrandLedger
  import opened TableSums

  // The two legs of a redemption: the Stock Token and USDG.
  datatype Leg = StockLeg | UsdgLeg

  function Reserve(f: FundColumns, leg: Leg): nat {
    match leg case StockLeg => f.reservedAssets case UsdgLeg => f.usdgReservedForQueue
  }

  function EpochLeft(leg: Leg): Epoch -> int {
    match leg
    case StockLeg => (ep: Epoch) => ep.assetsSettled - ep.assetsClaimed
    case UsdgLeg => (ep: Epoch) => ep.usdgSettled - ep.usdgClaimed
  }

  function StrandLeft(leg: Leg): Strand -> int {
    match leg case StockLeg => (s: Strand) => s.assetsLeft case UsdgLeg => (s: Strand) => s.usdgLeft
  }

  function OwedOn(leg: Leg): Owed -> int {
    match leg case StockLeg => (o: Owed) => o.assets case UsdgLeg => (o: Owed) => o.usdg
  }

  // What the reserve on one leg is made of.
  ghost function Promised(epochs: map<nat, Epoch>, strands: map<nat, Strand>, q: Queue, leg: Leg): int {
    Sum(epochs, EpochLeft(leg)) + Sum(strands, StrandLeft(leg)) + Sum(q.owed, OwedOn(leg))
  }

  ghost predicate ReserveLaw(t: Db, g: Books) {
    forall leg: Leg :: Reserve(t.funds, leg) == Promised(t.epochs, t.strands, g.queue, leg)
  }

  // The same equation after the next log.
  ghost predicate Balanced(t: Db, g: Books, e: Emission, leg: Leg) {
    Reserve(FundsAfter(t, e.log), leg)
    == Promised(EpochsAfter(t, e.tx, e.log), StrandsAfter(t, e.tx, e.log), NextQueue(g.queue, e.log), leg)
  }

  // ---------------------------------------------------------------- nothing saturates

  lemma EpochsOwe(t: Db, g: Books, leg: Leg)
    requires QueueLaw(t, g)
    ensures Sum(t.epochs, EpochLeft(leg)) >= 0
  {
    forall e | e in t.epochs ensures EpochLeft(leg)(t.epochs[e]) >= 0 {
    }
    SumNonNegative(t.epochs, EpochLeft(leg));
  }

  // The balance owed to one claimant is inside the reserve, on both legs.
  lemma OwedFits(t: Db, g: Books, owner: Address, leg: Leg)
    requires QueueLaw(t, g) && ReserveLaw(t, g)
    ensures OwedOn(leg)(OwedTo(g.queue, owner)) <= Reserve(t.funds, leg)
  {
    EpochsOwe(t, g, leg);
    SumNonNegative(t.strands, StrandLeft(leg));
    SumNonNegative(g.queue.owed, OwedOn(leg));
    if owner in g.queue.owed {
      SumAtLeast(g.queue.owed, owner, OwedOn(leg));
    }
  }

  // ---------------------------------------------------------------- preservation

  lemma OwedPut(q: Queue, a: Address, o: Owed, leg: Leg)
    ensures Sum(q.owed[a := o], OwedOn(leg)) == Sum(q.owed, OwedOn(leg)) - OwedOn(leg)(OwedTo(q, a)) + OwedOn(leg)(o)
  {
    SumPut(q.owed, a, o, NOTHING_OWED, OwedOn(leg));
  }

  lemma SettlementReserves(t: Db, g: Books, e: Emission, leg: Leg)
    requires QueueLaw(t, g) && ReserveLaw(t, g) && Legal(g, e) && e.log.QueueSettled?
    ensures Balanced(t, g, e, leg)
  {
    assert Reserve(t.funds, leg) == Promised(t.epochs, t.strands, g.queue, leg);
    SettlementMovesColumn(t, e.tx, e.log, EpochLeft(leg));
  }

  // Leaving an epoch books what it paid as owed; the reserve does not move.
  lemma EntryKeepsPromise(t: Db, g: Books, e: Emission, leg: Leg)
    requires QueueLaw(t, g) && ReserveLaw(t, g) && Legal(g, e) && e.log.QueueEntrySettled?
    ensures Balanced(t, g, e, leg)
  {
    assert Reserve(t.funds, leg) == Promised(t.epochs, t.strands, g.queue, leg);
    SumPut(t.epochs, e.log.epochId, EpochsAfter(t, e.tx, e.log)[e.log.epochId], BARE_EPOCH, EpochLeft(leg));
    OwedPut(g.queue, e.log.owner, NextQueue(g.queue, e.log).owed[e.log.owner], leg);
  }

  // Folding a strand share books what it paid as owed; the reserve does not move.
  lemma FoldKeepsPromise(t: Db, g: Books, e: Emission, leg: Leg)
    requires PhaseLaw(t, g) && WadLaw(t, g) && ReserveLaw(t, g) && Legal(g, e) && e.log.StrandShareSettled?
    ensures Balanced(t, g, e, leg)
  {
    assert Reserve(t.funds, leg) == Promised(t.epochs, t.strands, g.queue, leg);
    var gen := e.log.gen;
    assert StrandMirrors(t.strands[gen], gen, g.machine, g.queue);
    SumPut(t.strands, gen, StrandsAfter(t, e.tx, e.log)[gen], t.strands[gen], StrandLeft(leg));
    OwedPut(g.queue, e.log.owner, NextQueue(g.queue, e.log).owed[e.log.owner], leg);
  }

  lemma PayoutReleases(t: Db, g: Books, e: Emission, leg: Leg)
    requires QueueLaw(t, g) && ReserveLaw(t, g) && Legal(g, e) && (e.log.ReserveHaircut? || e.log.CompleteRedeem?)
    ensures Balanced(t, g, e, leg)
  {
    assert Reserve(t.funds, leg) == Promised(t.epochs, t.strands, g.queue, leg);
    OwedFits(t, g, e.log.owner, leg);
    OwedPut(g.queue, e.log.owner, NextQueue(g.queue, e.log).owed[e.log.owner], leg);
  }

  const NEW_STRAND := Strand(0, 0, 0, 0, false, None, 0, 0, 0, 0, 0, 0, 0)

  lemma RecoveryReserves(t: Db, g: Books, e: Emission, leg: Leg)
    requires PhaseLaw(t, g) && WadLaw(t, g) && ReserveLaw(t, g) && Legal(g, e) && e.log.StrandedClaimRecovered?
    ensures Balanced(t, g, e, leg)
  {
    var gen := e.log.gen;
    assert Reserve(t.funds, leg) == Promised(t.epochs, t.strands, g.queue, leg);
    assert StrandMirrors(t.strands[gen], gen, g.machine, g.queue);
    SumPut(t.strands, gen, RecoveredStrand(t.strands[gen], e.tx, e.log.assets, e.log.usdg, e.log.queueWad), NEW_STRAND, StrandLeft(leg));
  }

  // A claim that is still open promises nothing yet.
  lemma OpenClaimPromisesNothing(t: Db, e: Emission, leg: Leg)
    requires e.log.ClaimStranded? || e.log.EpochStrandShare?
    ensures Sum(StrandsAfter(t, e.tx, e.log), StrandLeft(leg)) == Sum(t.strands, StrandLeft(leg))
  {
    if StrandsAfter(t, e.tx, e.log) != t.strands {
      SumPut(t.strands, e.log.gen, StrandsAfter(t, e.tx, e.log)[e.log.gen], NEW_STRAND, StrandLeft(leg));
    }
  }

  // The logs that move a reserve, an epoch's or a strand's figures, or an owed balance.
  predicate MovesReserve(log: Log) {
    MovesEpochs(log) || MovesStrands(log) || log.ReserveHaircut? || log.CompleteRedeem?
  }

  lemma ReserveStill(t: Db, g: Books, e: Emission, leg: Leg)
    requires ReserveLaw(t, g) && !MovesReserve(e.log)
    ensures Balanced(t, g, e, leg)
  {
    assert Reserve(t.funds, leg) == Promised(t.epochs, t.strands, g.queue, leg);
  }

  lemma QueueingPromisesNothing(t: Db, e: Emission, leg: Leg)
    requires e.log.QueueRedeem? || e.log.EpochStrandShare?
    ensures Sum(EpochsAfter(t, e.tx, e.log), EpochLeft(leg)) == Sum(t.epochs, EpochLeft(leg))
  {
    SumPut(t.epochs, e.log.epochId, EpochsAfter(t, e.tx, e.log)[e.log.epochId], BARE_EPOCH, EpochLeft(leg));
  }

  lemma OtherKeepsReserve(t: Db, g: Books, e: Emission, leg: Leg)
    requires ReserveLaw(t, g) && (e.log.QueueRedeem? || e.log.EpochStrandShare? || e.log.ClaimStranded?)
    ensures Balanced(t, g, e, leg)
  {
    assert Reserve(t.funds, leg) == Promised(t.epochs, t.strands, g.queue, leg);
    if !e.log.QueueRedeem? {
      OpenClaimPromisesNothing(t, e, leg);
    }
    if !e.log.ClaimStranded? {
      QueueingPromisesNothing(t, e, leg);
    }
  }

  lemma ReserveOnLeg(t: Db, g: Books, e: Emission, leg: Leg)
    requires PhaseLaw(t, g) && QueueLaw(t, g) && WadLaw(t, g) && ReserveLaw(t, g) && Legal(g, e)
    ensures Balanced(t, g, e, leg)
  {
    if !MovesReserve(e.log) {
      ReserveStill(t, g, e, leg);
    } else if e.log.QueueSettled? {
      SettlementReserves(t, g, e, leg);
    } else if e.log.QueueEntrySettled? {
      EntryKeepsPromise(t, g, e, leg);
    } else if e.log.StrandShareSettled? {
      FoldKeepsPromise(t, g, e, leg);
    } else if e.log.StrandedClaimRecovered? {
      RecoveryReserves(t, g, e, leg);
    } else if e.log.ReserveHaircut? || e.log.CompleteRedeem? {
      PayoutReleases(t, g, e, leg);
    } else {
      OtherKeepsReserve(t, g, e, leg);
    }
  }

  lemma ReserveKept(t: Db, g: Books, e: Emission)
    requires PhaseLaw(t, g) && QueueLaw(t, g) && WadLaw(t, g) && ReserveLaw(t, g) && Legal(g, e)
    ensures ReserveLaw(Reduce(t, e.tx, e.log), Next(g, e))
  {
    var u, h := Reduce(t, e.tx, e.log), Next(g, e);
    forall leg: Leg ensures Reserve(u.funds, leg) == Promised(u.epochs, u.strands, h.queue, leg) {
      ReserveOnLeg(t, g, e, leg);
    }
  }
}
