// Concrete runs on which the inference from a transaction hash goes wrong: they show the conditions of
// the exact theorems are needed, and that legal runs of every kind exist.
module Witnesses {
  import opened Common
  import opened Sums
  import opened Lifecycle
  import opened Rows
  import opened Logs
  import opened Reducers
  import opened Chain
  import opened StrandLedger
  import opened CycleLedger
  import opened MoneyLedger
  import opened OriginLedger
  import opened Runs
  import opened Theorems

  lemma Start() returns (run: seq<Emission>)
    ensures run == [] && LegalRun(run) && BooksOf(run) == GENESIS && TapeOf(run) == EMPTY_DB
  {
    run := [];
  }

  lemma Then(run: seq<Emission>, e: Emission) returns (more: seq<Emission>)
    requires LegalRun(run) && Legal(BooksOf(run), e)
    ensures more == run + [e] && LegalRun(more) && BooksOf(more) == Next(BooksOf(run), e)
    ensures TapeOf(more) == Reduce(TapeOf(run), e.tx, e.log)
  {
    more := run + [e];
    assert more[..|run|] == run;
  }

  predicate Quiet(g: Books) {
    g.truth == GENESIS.truth && g.txs == Txs(Some(1), {1}, None, None, 0)
  }

  // A week is armed.
  lemma ArmedOne() returns (run: seq<Emission>)
    ensures LegalRun(run) && Quiet(BooksOf(run)) && BooksOf(run).queue == GENESIS.queue && BooksOf(run).orders == map[]
    ensures BooksOf(run).machine == Machine(Phase.Listed, 1, Some(7), None, 0, 0, None, 0, 0, 0, Rest)
  {
    run := Start();
    hide LegalRun, BooksOf, TapeOf, Reduce, NextTokens;
    run := Then(run, Emission(1, Elsewhere, RollOpen(1, 7, 20, WindowReads(30, 40, 30, 40))));
  }

  // One contract is listed at 100.
  lemma ListedOne() returns (run: seq<Emission>)
    ensures LegalRun(run) && Quiet(BooksOf(run))
    ensures BooksOf(run).machine == Machine(Phase.Listed, 1, Some(7), None, 0, 0, Some(5), 0, 0, 0, Rest)
    ensures BooksOf(run).orders == map[5 := Order(1, 1, 100, 0)]
  {
    run := ArmedOne();
    hide LegalRun, BooksOf, TapeOf, Reduce, NextQueue, NextTokens;
    run := Then(run, Emission(1, Elsewhere, ListingApproved(5, 1, 100, 1)));
  }

  // A fill writes it, first in Valorem, then in the vault's own log.
  lemma MintedOne() returns (run: seq<Emission>)
    ensures LegalRun(run) && Quiet(BooksOf(run))
    ensures BooksOf(run).machine == Machine(Phase.Listed, 1, Some(7), Some(9), 0, 0, Some(5), 0, 0, 0, Wrote(0))
    ensures BooksOf(run).orders == map[5 := Order(1, 1, 100, 0)]
  {
    run := ListedOne();
    hide LegalRun, BooksOf, TapeOf, Reduce, NextQueue, NextTokens;
    run := Then(run, Emission(1, Elsewhere, OptionsWritten(7, 9)));
  }

  lemma WrittenOne() returns (run: seq<Emission>)
    ensures LegalRun(run) && Quiet(BooksOf(run))
    ensures BooksOf(run).machine == Machine(Phase.Listed, 1, Some(7), Some(9), 1, LOT, Some(5), 0, 0, 0, Filling(1))
    ensures BooksOf(run).orders == map[5 := Order(1, 1, 100, 0)]
  {
    run := MintedOne();
    hide LegalRun, BooksOf, TapeOf, Reduce, NextQueue, NextTokens;
    run := Then(run, Emission(1, Elsewhere, CallsWritten(7, 9, 1, LOT)));
  }

  // Seaport reports the fill.
  lemma FilledOne() returns (run: seq<Emission>)
    ensures LegalRun(run) && Quiet(BooksOf(run))
    ensures BooksOf(run).machine == Machine(Phase.Listed, 1, Some(7), Some(9), 1, LOT, Some(5), 0, 0, 0, Rest)
  {
    var offer := [OfferItem(ITEM_ERC1155, Clearinghouse, 1)];
    var payment := [ConsiderationItem(ITEM_ERC20, Usdg, 100, Vault)];
    OneItem(offer, payment);
    run := WrittenOne();
    hide LegalHarvest, LegalRollClose, LegalTransfer, LegalEntrySettled;
    hide LegalRun, BooksOf, TapeOf, Reduce, Contracts, ToVault, NextQueue, NextTokens, NextOrders, LiveCut, QueueCut;
    hide NextTruth, NextTxs, NextMachine, Quiet, LegalLog;
    var e := Emission(1, Elsewhere, OrderFulfilled(5, Vault, offer, payment));
    FillIsLegal(BooksOf(run), e);
    run := Then(run, e);
  }

  lemma FillIsLegal(g: Books, e: Emission)
    requires Quiet(g) && g.machine == Machine(Phase.Listed, 1, Some(7), Some(9), 1, LOT, Some(5), 0, 0, 0, Filling(1))
    requires g.orders == map[5 := Order(1, 1, 100, 0)]
    requires e.tx == 1 && e.log.OrderFulfilled? && e.log.orderHash == 5 && e.log.offerer == Vault
    requires Contracts(e.log.offer) == 1 && ToVault(e.log.consideration) == 100
    ensures Legal(g, e) && NextMachine(g.machine, e.log) == g.machine.(pending := Rest)
    ensures NextTxs(g.txs, e.tx, e.log) == g.txs && NextTruth(g, e) == g.truth
  {
    hide Contracts, ToVault, LegalHarvest, LegalRollClose, LegalTransfer, LegalEntrySettled, LiveCut, QueueCut;
  }

  lemma OneItem(offer: seq<OfferItem>, payment: seq<ConsiderationItem>)
    requires offer == [OfferItem(ITEM_ERC1155, Clearinghouse, 1)] && payment == [ConsiderationItem(ITEM_ERC20, Usdg, 100, Vault)]
    ensures Contracts(offer) == 1 && ToVault(payment) == 100
  {
    assert offer[..0] == [] && payment[..0] == [];
  }

  // And the listing is taken down.
  lemma SoldOne() returns (run: seq<Emission>)
    ensures LegalRun(run) && Quiet(BooksOf(run))
    ensures BooksOf(run).machine == Machine(Phase.Listed, 1, Some(7), Some(9), 1, LOT, None, 0, 0, 0, Rest)
  {
    run := FilledOne();
    hide LegalRun, BooksOf, TapeOf, Reduce, NextQueue, NextTokens, NextOrders;
    run := Then(run, Emission(1, Elsewhere, ListingCancelled(5)));
  }

  // The close strands the claim.
  lemma StrandedOne() returns (run: seq<Emission>)
    ensures LegalRun(run)
    ensures BooksOf(run).machine == Machine(Phase.Idle, 1, Some(7), Some(9), 1, LOT, None, 1, 0, WAD, Rest)
    ensures var g := BooksOf(run);
            g.txs == Txs(Some(1), {1}, Some(1), None, 0) && g.truth.leaks == g.truth.clamps == map[] && |g.truth.origins| == 1
  {
    run := SoldOne();
    hide LegalRun, BooksOf, TapeOf, Reduce, NextQueue, NextTokens, NextOrders;
    run := Then(run, Emission(1, FromRollClose, ClaimStranded(1, 9, 1)));
    assert BooksOf(run).machine == Machine(Phase.Listed, 1, Some(7), Some(9), 1, LOT, None, 1, 0, WAD, Stranding);
    run := Then(run, Emission(1, FromRollClose, Log.RollClose(1, 0, 0, 1)));
    assert BooksOf(run).machine == Machine(Phase.Settling, 1, Some(7), Some(9), 1, LOT, None, 1, 0, WAD, Closing(0));
    run := Then(run, Emission(1, FromRollClose, Log.Harvest(1, 100, 0, 100)));
  }

  // A later transaction redeems it for 50 of strike USDG.
  lemma RedeemedOne() returns (run: seq<Emission>)
    ensures LegalRun(run)
    ensures BooksOf(run).machine == Machine(Phase.Idle, 1, None, None, 0, 0, None, 1, 0, WAD, Redeemed(0, 50, 1))
    ensures var g := BooksOf(run);
            g.txs == Txs(Some(2), {1, 2}, Some(1), None, 0) && g.truth.leaks == g.truth.clamps == map[] && |g.truth.origins| == 1
  {
    run := StrandedOne();
    hide LegalHarvest, LegalRollClose, LegalFill, LegalTransfer, LegalEntrySettled;
    hide LegalRun, BooksOf, TapeOf, Reduce, NextQueue, NextTokens, NextOrders;
    run := Then(run, Emission(2, FromRetry, ClearClaimRedeemed(0, 50)));
    assert BooksOf(run).machine == Machine(Phase.Idle, 1, Some(7), Some(9), 1, LOT, None, 1, 0, WAD, Redeeming(0, 50));
    run := Then(run, Emission(2, FromRetry, ClaimRedeemed(9, 0, 50)));
  }

  // All of it is the live shares': no epoch took a share.
  lemma ReportedOne() returns (run: seq<Emission>)
    ensures LegalRun(run)
    ensures BooksOf(run).machine == Machine(Phase.Idle, 1, None, None, 0, 0, None, 1, 1, 0, Recovered(50))
    ensures var g := BooksOf(run);
            g.txs == Txs(Some(2), {1, 2}, Some(1), Some(2), 50) && g.truth.leaks == g.truth.clamps == map[] && |g.truth.origins| == 1
  {
    run := RedeemedOne();
    assert LiveCut(50, 0) == 50;
    hide LegalHarvest, LegalRollClose, LegalFill, LegalTransfer, LegalEntrySettled;
    hide LegalRun, BooksOf, TapeOf, Reduce, LiveCut, QueueCut, NextQueue, NextTokens, NextOrders;
    run := Then(run, Emission(2, FromRetry, StrandedClaimRecovered(1, 0, 50, 0)));
  }

  // And it is harvested.
  lemma RecoveredOne() returns (run: seq<Emission>)
    ensures LegalRun(run)
    ensures BooksOf(run).machine == Machine(Phase.Idle, 1, None, None, 0, 0, None, 1, 1, 0, Rest)
    ensures var g := BooksOf(run);
            g.txs == Txs(Some(2), {1, 2}, Some(1), Some(2), 50) && g.truth.leaks == g.truth.clamps == map[] && |g.truth.origins| == 2
  {
    run := ReportedOne();
    hide LegalRun, BooksOf, TapeOf, Reduce, NextQueue, NextTokens, NextOrders;
    run := Then(run, Emission(2, FromRetry, Log.Harvest(1, 50, 0, 50)));
  }

  // A deposit batched after that retry sweeps 10 of premium, which the index publishes as the retry's
  // strike proceeds: the origin is wrong, and ten units of premium read as principal.
  lemma PremiumCanReadAsPrincipal() returns (run: seq<Emission>)
    ensures LegalRun(run) && BooksOf(run).machine.pending == Rest && !NeverLeaks(run, 1)
    ensures var t := TapeOf(run);
            t.money.lifetimeAssignmentUsdg + 10 == t.money.lifetimeStrikeProceeds + Sum(t.strands, QueuePart())
    ensures var t, u := TapeOf(run), BooksOf(run).truth;
            |t.harvests| == |u.origins| == 3 && t.harvests[2].origin == HarvestOrigin.Retry && u.origins[2] == HarvestOrigin.Checkpoint
  {
    var recovered := RecoveredOne();
    hide LegalRun, BooksOf, TapeOf, NeverLeaks, Reduce, Total;
    var e := Emission(2, FromDeposit, Log.Harvest(1, 10, 0, 10));
    run := Then(recovered, e);
    MisreadTotals(BooksOf(recovered), e);
    LeakExact(run, 1);
    PrincipalConserved(run);
    SameLength(run);
    HarvestOriginsExact(run, 2);
  }

  // The first misread checkpoint is all there is to charge.
  lemma MisreadTotals(g: Books, e: Emission)
    requires g.truth.leaks == g.truth.clamps == map[] && e.log.Harvest?
    ensures var u := NextTruth(g, e); Total(u.leaks) == LeakBy(g, e) && Total(u.clamps) == ClampBy(g, e)
  {
    MisreadCharged(g, e);
  }

  // Charged a fee of 1 on the way, that sweep leaves no premium to take it from: the week's take is one less
  // than its three parts, and so is the lifetime credited figure.
  lemma FeeCanBeClamped() returns (run: seq<Emission>)
    ensures LegalRun(run) && !NeverClamps(run, 1) && 1 in TapeOf(run).cycles
    ensures var w := TapeOf(run).cycles[1].totals; w.harvestGross + 1 == w.premiumNet + w.fee + w.strikeProceeds
    ensures var y := TapeOf(run).money; y.lifetimeCreditedUsdg + 1 == y.lifetimePremiumNet + y.lifetimeStrikeProceeds
  {
    var recovered := RecoveredOne();
    hide LegalRun, BooksOf, TapeOf, NeverClamps, Reduce, Total;
    var e := Emission(2, FromDeposit, Log.Harvest(1, 10, 1, 9));
    run := Then(recovered, e);
    MisreadTotals(BooksOf(recovered), e);
    ClampExact(run, 1);
    CreditedConserved(run);
    WeekIsPublished(run);
    WeekAddsUpExactly(run, 1);
  }

  // And the published week it lands on is restated.
  lemma PublishedWeekCanBeRestated() returns (run: seq<Emission>, e: Emission)
    ensures LegalRun(run) && Legal(BooksOf(run), e) && !OfRetry(BooksOf(run), e)
    ensures var before, after := TapeOf(run).cycles, Reduce(TapeOf(run), e.tx, e.log).cycles;
            1 in before && before[1].harvested && 1 in after && !SameMoney(before[1], after[1])
  {
    run := RecoveredOne();
    hide LegalRun, BooksOf, TapeOf, Reduce, SameMoney;
    e := Emission(2, FromDeposit, Log.Harvest(1, 10, 0, 10));
    WeekIsPublished(run);
    PublishedWeekFrozen(run, e, 1);
  }

  lemma WeekIsPublished(run: seq<Emission>)
    requires LegalRun(run) && BooksOf(run).machine.cycle == 1 && BooksOf(run).machine.phase == Phase.Idle
    ensures 1 in TapeOf(run).cycles && TapeOf(run).cycles[1].harvested
  {
    hide LegalRun, BooksOf, TapeOf;
    EveryRun(run);
    assert RowDecided(TapeOf(run).cycles[1], 1, BooksOf(run).machine);
  }

  lemma SameLength(run: seq<Emission>)
    requires LegalRun(run)
    ensures |TapeOf(run).harvests| == |BooksOf(run).truth.origins|
  {
    hide LegalRun, BooksOf, TapeOf;
    EveryRun(run);
  }

  // An armed week closes with nothing sold.
  lemma ClosingUnfilled() returns (run: seq<Emission>)
    ensures LegalRun(run)
    ensures BooksOf(run).machine == Machine(Phase.Settling, 1, None, None, 0, 0, None, 0, 0, 0, Closing(0))
    ensures BooksOf(run).txs == Txs(Some(1), {1}, Some(1), None, 0) && BooksOf(run).queue == GENESIS.queue
  {
    run := ArmedOne();
    hide LegalRun, BooksOf, TapeOf, Reduce, NextTokens, NextOrders, NextTruth;
    run := Then(run, Emission(1, FromRollClose, Log.RollClose(1, 0, 0, 0)));
  }

  lemma ClosedUnfilled() returns (run: seq<Emission>)
    ensures LegalRun(run)
    ensures BooksOf(run).machine == Machine(Phase.Idle, 1, None, None, 0, 0, None, 0, 0, 0, Rest)
    ensures BooksOf(run).txs == Txs(Some(1), {1}, Some(1), None, 0) && BooksOf(run).queue == GENESIS.queue
  {
    run := ClosingUnfilled();
    hide LegalRun, BooksOf, TapeOf, Reduce, NextTokens, NextOrders, NextTruth;
    run := Then(run, Emission(1, FromRollClose, Log.Harvest(1, 0, 0, 0)));
  }

  // A flat settleQueue batched after that close is published under its week.
  lemma SettlementCanBeMisdated() returns (run: seq<Emission>)
    ensures LegalRun(run) && 1 in TapeOf(run).epochs
    ensures 1 in BooksOf(run).truth.settledIn && BooksOf(run).truth.settledIn[1] == None
    ensures TapeOf(run).epochs[1].cycleNumber == Some(1)
  {
    var closed := ClosedUnfilled();
    hide LegalRun, BooksOf, TapeOf;
    RowMirrorsMachine(closed);
    run := Then(closed, Emission(1, FromSettleQueue, QueueSettled(1, 0, 0, 0)));
    SettledUnder(TapeOf(closed), 1);
  }

  lemma SettledUnder(t: Db, id: nat)
    requires t.week.rollCloseTx == Some(1)
    ensures var after := Reduce(t, 1, QueueSettled(id, 0, 0, 0)).epochs;
            id in after && after[id].cycleNumber == Some(t.week.cycleNumber)
  {
  }

  lemma RowMirrorsMachine(run: seq<Emission>)
    requires LegalRun(run)
    ensures TapeOf(run).week.cycleNumber == BooksOf(run).machine.cycle && TapeOf(run).week.rollCloseTx == BooksOf(run).txs.closeTx
  {
    hide LegalRun, BooksOf, TapeOf;
    EveryRun(run);
  }
}
