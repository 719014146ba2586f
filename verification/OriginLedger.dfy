// The two inferences from a transaction hash, over whole runs: which entry point emitted each
// Harvest, and which week an epoch settled in. Each published answer is right exactly when the
// event was not one of the ambiguous ones the hash and the phase cannot separate.
module OriginLedger {
  import opened Common
  import opened Lifecycle
  import opened Rows
  import opened Logs
  import opened Reducers
  import opened Chain
  import opened PhaseMirror
  import opened QueueMirror
  import opened SalesLedger
  import opened CycleLedger
  import opened MoneyLedger

  // ---------------------------------------------------------------- every published harvest row

  ghost predicate OriginLaw(harvests: seq<HarvestRow>, truth: Truth) {
    && |harvests| == |truth.origins|
    && (forall i: nat :: i in truth.ambiguous ==> i < |harvests|)
    && (forall i :: 0 <= i < |harvests| ==>
          && (harvests[i].origin == truth.origins[i] <==> i !in truth.ambiguous)
          && (harvests[i].terminal <==> truth.origins[i] == HarvestOrigin.RollClose)
          && (i in truth.ambiguous ==> harvests[i].origin == HarvestOrigin.Retry && truth.origins[i] == HarvestOrigin.Checkpoint))
  }

  lemma OriginKept(t: Db, g: Books, e: Emission)
    requires PhaseLaw(t, g) && OriginLaw(t.harvests, g.truth) && Legal(g, e)
    ensures OriginLaw(HarvestsAfter(t, e.tx, e.log), NextTruth(g, e))
  {
    if e.log.Harvest? {
      OriginExact(t, g, e);
    }
  }

  // ---------------------------------------------------------------- every settled epoch

  // The epoch's published week is the one it settled in exactly when it was not misdated.
  predicate Dated(epochs: map<nat, Epoch>, truth: Truth, id: nat) {
    && id in epochs && id in truth.settledIn
    && (epochs[id].cycleNumber == truth.settledIn[id] <==> id !in truth.misdated)
  }

  ghost predicate DateLaw(epochs: map<nat, Epoch>, q: Queue, truth: Truth) {
    && truth.settledIn.Keys == q.settled.Keys
    && truth.misdated <= q.settled.Keys
    && (forall id: nat :: id in q.settled ==> Dated(epochs, truth, id))
  }

  lemma SettlementDated(t: Db, g: Books, e: Emission)
    requires PhaseLaw(t, g) && EpochsMirror(t.epochs, g.queue) && DateLaw(t.epochs, g.queue, g.truth)
    requires Legal(g, e) && e.log.QueueSettled?
    ensures DateLaw(EpochsAfter(t, e.tx, e.log), NextQueue(g.queue, e.log), NextTruth(g, e))
  {
    hide LegalHarvest, LegalRollClose, LegalFill, LegalTransfer, LegalEntrySettled, MachineOk, LastStrandMirrors, TxsOk;
    hide SettledMirrors, OpenMirrors;
  }

  // Between settlements no epoch's week, and no settled epoch, moves.
  lemma WeeksStill(t: Db, g: Books, e: Emission)
    requires Legal(g, e) && !e.log.QueueSettled?
    ensures NextTruth(g, e).settledIn == g.truth.settledIn && NextTruth(g, e).misdated == g.truth.misdated
    ensures NextQueue(g.queue, e.log).settled.Keys == g.queue.settled.Keys
    ensures t.epochs.Keys <= EpochsAfter(t, e.tx, e.log).Keys
    ensures forall id: nat :: id in t.epochs ==> EpochsAfter(t, e.tx, e.log)[id].cycleNumber == t.epochs[id].cycleNumber
  {
  }

  lemma DateKept(t: Db, g: Books, e: Emission)
    requires PhaseLaw(t, g) && QueueLaw(t, g) && DateLaw(t.epochs, g.queue, g.truth) && Legal(g, e)
    ensures DateLaw(EpochsAfter(t, e.tx, e.log), NextQueue(g.queue, e.log), NextTruth(g, e))
  {
    if e.log.QueueSettled? {
      SettlementDated(t, g, e);
    } else {
      WeeksStill(t, g, e);
      forall id: nat | id in NextQueue(g.queue, e.log).settled ensures Dated(EpochsAfter(t, e.tx, e.log), NextTruth(g, e), id) {
        assert Dated(t.epochs, g.truth, id);
      }
    }
  }

  // ---------------------------------------------------------------- a published week stays published

  // The logs of retryStrandedClaim.
  predicate OfRetry(g: Books, e: Emission) {
    && g.machine.phase == Phase.Idle
    && (e.log.ClearClaimRedeemed? || e.log.ClaimRedeemed? || e.log.StrandedClaimRecovered? || (e.log.Harvest? && e.entry == FromRetry))
  }

  predicate SameMoney(c: Cycle, d: Cycle) {
    && d.status == c.status && d.harvested == c.harvested && d.totals == c.totals
    && d.assignmentUsdg == c.assignmentUsdg && d.assetsReturned == c.assetsReturned
    && d.contractsAssigned == c.contractsAssigned && d.contractsWritten == c.contractsWritten
    && d.premiumGross == c.premiumGross
  }

  // Outside its own stranded claim's retry, a harvested week's verdict and money stand still exactly when the
  // log is not a checkpoint misread as that retry's.
  lemma HarvestedWeekFrozen(t: Db, g: Books, e: Emission, n: nat)
    requires PhaseLaw(t, g) && SalesLaw(t, g) && CycleLaw(t, g) && Legal(g, e)
    requires n in t.cycles && t.cycles[n].harvested
    requires n == g.machine.cycle ==> !OfRetry(g, e)
    ensures n in CyclesAfter(t, e.tx, e.log)
    ensures SameMoney(t.cycles[n], CyclesAfter(t, e.tx, e.log)[n]) <==> !(n == g.machine.cycle && Ambiguous(g, e))
  {
    hide CycleRowAfter, Tallies, ListingSums, LegalLog;
    TouchesCurrent(t, g, e);
    RowIs(t, e.tx, e.log, n);
    assert RowDecided(t.cycles[n], n, g.machine);
    if CycleTouched(t, e.log) == Some(n) {
      if Ambiguous(g, e) {
        MisreadMoves(t, g, e);
      } else {
        CurrentWeekFrozen(t, g, e);
      }
    } else if Ambiguous(g, e) {
      assert e.log.cycleNumber == g.machine.cycle by { HarvestTruth(g, e); }
    }
  }

  lemma CurrentWeekFrozen(t: Db, g: Books, e: Emission)
    requires PhaseLaw(t, g) && SalesLaw(t, g) && CycleLaw(t, g) && Legal(g, e)
    requires var n := g.machine.cycle; n in t.cycles && t.cycles[n].harvested && CycleTouched(t, e.log) == Some(n)
    requires !OfRetry(g, e) && !Ambiguous(g, e)
    ensures var c := CycleOf(t, g.machine.cycle); SameMoney(c, CycleRowAfter(t, e.tx, e.log, c))
  {
    hide Tallies, ListingSums;
    var n := g.machine.cycle;
    TouchesCurrent(t, g, e);
    assert RowDecided(t.cycles[n], n, g.machine);
    if e.log.Harvest? {
      OriginExact(t, g, e);
    }
  }

  // A misread checkpoint always restates its week: it sweeps something, and all of it is added.
  lemma MisreadMoves(t: Db, g: Books, e: Emission)
    requires PhaseLaw(t, g) && Legal(g, e) && Ambiguous(g, e)
    ensures var c := CycleOf(t, g.machine.cycle);
            var d := CycleRowAfter(t, e.tx, e.log, c);
            d.totals.harvestGross == c.totals.harvestGross + e.log.gross && 0 < e.log.gross
  {
    OriginExact(t, g, e);
  }
}
