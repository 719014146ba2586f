// What a reader of the published tables may rely on, stated over every legal run. Each theorem
// follows from the invariant of Runs.dfy; none mentions how the tables are computed.
module Theorems {
  import opened Common
  import opened Sums
  import opened Lifecycle
  import opened Rows
  import opened Logs
  import opened Reducers
  import opened Chain
  import opened PhaseMirror
  import opened QueueMirror
  import opened StrandLedger
  import opened ReserveLedger
  import opened ShareLedger
  import opened SalesLedger
  import opened CycleLedger
  import opened MoneyLedger
  import opened WeekLedger
  import opened OriginLedger
  import opened FlowLedger
  import opened DrainLedger
  import opened HarvestLedger
  import opened Harvest
  import opened Sweeps
  import opened Capacity
  import opened Runs

  // ---------------------------------------------------------------- phase and strand

  // Between entry points the row is never Settling, it reads stranded exactly while Idle with a claim
  // open, the option id is null exactly while Idle and not stranded, and the locked collateral is
  // the current week's while its claim is open and nothing otherwise.
  lemma {:induction false} PhaseAtRest(run: seq<Emission>)
    requires LegalRun(run) && BooksOf(run).machine.pending == Rest
    ensures var t := TapeOf(run); var w := t.week;
            && w.phase != Phase.Settling
            && (w.stranded <==> w.phase == Phase.Idle && w.claimKey.Some?)
            && (w.stranded <==> w.strandGen != w.lastResolvedGen)
            && (w.optionId == None <==> w.phase == Phase.Idle && !w.stranded)
            && w.lockedCollateral == (if w.claimKey.Some? then CycleOf(t, w.cycleNumber).collateral else 0)
            && (w.stranded ==> w.strandedCycleNumber == Some(w.cycleNumber))
  {
    hide LegalRun, TapeOf, BooksOf;
    EveryRun(run);
  }

  // ---------------------------------------------------------------- stranded claims

  // Every generation's WAD is where the rows say it is, at every moment.
  lemma {:induction false} StrandWadConserved(run: seq<Emission>, gen: nat)
    requires LegalRun(run) && gen in TapeOf(run).strands
    ensures var t := TapeOf(run); var s := t.strands[gen];
            && Sum(t.users, UserWad(gen)) + Sum(t.epochs, EpochWad(gen)) == (if s.recovered then s.wadLeft else s.epochWad)
            && (!s.recovered ==> s.epochWad + t.week.strandedRemainingWad == 1_000_000_000_000_000_000)
            && (s.recovered <==> gen <= t.week.lastResolvedGen)
  {
    hide LegalRun, TapeOf, BooksOf;
    EveryRun(run);
    var t, g := TapeOf(run), BooksOf(run);
    assert StrandMirrors(t.strands[gen], gen, g.machine, g.queue);
    assert Sum(t.users, UserWad(gen)) + Sum(t.epochs, EpochWad(gen)) == WadOut(t.strands, gen);
  }

  // An epoch whose settled shares have all been claimed has handed out all of its share of the claim.
  lemma {:induction false} ClaimedEpochIsDrained(run: seq<Emission>, id: nat)
    requires LegalRun(run) && id in TapeOf(run).epochs
    ensures var ep := TapeOf(run).epochs[id];
            ep.settled && 0 < ep.sharesSettled == ep.sharesClaimed ==> ep.strandWadClaimed == ep.strandWad
  {
    hide LegalRun, TapeOf, BooksOf;
    EveryRun(run);
    assert Drained(TapeOf(run).epochs[id]);
  }

  // ---------------------------------------------------------------- reserves

  // Each reserve is exactly what settled epochs, recovered strands and owed balances still pay out.
  lemma {:induction false} ReservesDecompose(run: seq<Emission>)
    requires LegalRun(run)
    ensures var t, q := TapeOf(run), BooksOf(run).queue;
            && t.funds.reservedAssets
               == Sum(t.epochs, EpochLeft(StockLeg)) + Sum(t.strands, StrandLeft(StockLeg)) + Sum(q.owed, OwedOn(StockLeg))
            && t.funds.usdgReservedForQueue
               == Sum(t.epochs, EpochLeft(UsdgLeg)) + Sum(t.strands, StrandLeft(UsdgLeg)) + Sum(q.owed, OwedOn(UsdgLeg))
  {
    hide LegalRun, TapeOf, BooksOf;
    EveryRun(run);
    var t, g := TapeOf(run), BooksOf(run);
    assert Reserve(t.funds, StockLeg) == Promised(t.epochs, t.strands, g.queue, StockLeg);
    assert Reserve(t.funds, UsdgLeg) == Promised(t.epochs, t.strands, g.queue, UsdgLeg);
  }

  // The logs that book or pay a claimant's owed balances.
  predicate MovesOwed(log: Log, owner: Address) {
    && (log.QueueEntrySettled? || log.StrandShareSettled? || log.ReserveHaircut? || log.CompleteRedeem?)
    && log.owner == owner
  }

  // A haircut and the owner's next payout, whatever comes between them and whoever else is paid meanwhile,
  // together release exactly what was booked, and neither subtraction saturates.
  lemma {:induction false} HaircutReleasesBooked(run: seq<Emission>, a: Emission, between: seq<Emission>, b: Emission)
    requires LegalRun(run + [a] + between + [b])
    requires a.log.ReserveHaircut? && b.log.CompleteRedeem? && a.log.owner == b.log.owner
    requires forall i :: 0 <= i < |between| ==> !MovesOwed(between[i].log, a.log.owner)
    ensures var before, cut := TapeOf(run).funds, TapeOf(run + [a]).funds;
            var held, paid := TapeOf(run + [a] + between).funds, TapeOf(run + [a] + between + [b]).funds;
            && (before.reservedAssets - cut.reservedAssets) + (held.reservedAssets - paid.reservedAssets) == a.log.booked
            && b.log.assets == a.log.paid
            && cut.lifetimeHaircutAssets == before.lifetimeHaircutAssets + a.log.booked - a.log.paid
            && paid.lifetimeHaircutAssets == held.lifetimeHaircutAssets
  {
    hide LegalRun, TapeOf, BooksOf;
    var first, all := run + [a], run + [a] + between;
    LastLog(all, b);
    PrefixLegal(first, between);
    LastLog(run, a);
    ReservesHold(run);
    ReservesHold(all);
    OwedStill(first, between, a.log.owner);
    HaircutCuts(TapeOf(run), BooksOf(run), a);
    PayoutPays(TapeOf(all), BooksOf(all), b);
  }

  lemma {:induction false} LastLog(run: seq<Emission>, e: Emission)
    requires LegalRun(run + [e])
    ensures LegalRun(run) && Legal(BooksOf(run), e)
    ensures TapeOf(run + [e]) == Reduce(TapeOf(run), e.tx, e.log) && BooksOf(run + [e]) == Next(BooksOf(run), e)
  {
    hide Legal, Reduce, Next;
    assert (run + [e])[..|run|] == run;
  }

  lemma {:induction false} PrefixLegal(run: seq<Emission>, more: seq<Emission>)
    requires LegalRun(run + more)
    ensures LegalRun(run)
    decreases |more|
  {
    if more == [] {
      assert run + more == run;
    } else {
      var n := |more| - 1;
      assert run + more == run + more[..n] + [more[n]];
      LastLog(run + more[..n], more[n]);
      PrefixLegal(run, more[..n]);
    }
  }

  lemma {:induction false} OwedStill(run: seq<Emission>, more: seq<Emission>, owner: Address)
    requires forall i :: 0 <= i < |more| ==> !MovesOwed(more[i].log, owner)
    ensures OwedTo(BooksOf(run + more).queue, owner) == OwedTo(BooksOf(run).queue, owner)
    decreases |more|
  {
    hide MovesOwed, OwedTo, NextMachine, NextOrders, NextTokens, NextQueue, NextTxs, NextTruth;
    if more == [] {
      assert run + more == run;
    } else {
      var n := |more| - 1;
      OwedStill(run, more[..n], owner);
      assert (run + more)[..|run + more| - 1] == run + more[..n];
      OwedKept(BooksOf(run + more[..n]).queue, more[n].log, owner);
    }
  }

  lemma {:induction false} OwedKept(q: Queue, log: Log, owner: Address)
    requires !MovesOwed(log, owner)
    ensures OwedTo(NextQueue(q, log), owner) == OwedTo(q, owner)
  {
  }

  lemma {:induction false} HaircutCuts(t: Db, g: Books, a: Emission)
    requires QueueLaw(t, g) && ReserveLaw(t, g) && Legal(g, a) && a.log.ReserveHaircut?
    ensures var f := Reduce(t, a.tx, a.log).funds;
            && f.reservedAssets == t.funds.reservedAssets - (a.log.booked - a.log.paid)
            && f.lifetimeHaircutAssets == t.funds.lifetimeHaircutAssets + a.log.booked - a.log.paid
            && OwedTo(Next(g, a).queue, a.log.owner).assets == a.log.paid
  {
    OwedFits(t, g, a.log.owner, StockLeg);
  }

  lemma {:induction false} PayoutPays(t: Db, g: Books, b: Emission)
    requires QueueLaw(t, g) && ReserveLaw(t, g) && Legal(g, b) && b.log.CompleteRedeem?
    ensures b.log.assets == OwedTo(g.queue, b.log.owner).assets
    ensures var f := Reduce(t, b.tx, b.log).funds;
            && f.reservedAssets == t.funds.reservedAssets - b.log.assets
            && f.lifetimeHaircutAssets == t.funds.lifetimeHaircutAssets
  {
    OwedFits(t, g, b.log.owner, StockLeg);
  }

  lemma {:induction false} ReservesHold(run: seq<Emission>)
    requires LegalRun(run)
    ensures QueueLaw(TapeOf(run), BooksOf(run)) && ReserveLaw(TapeOf(run), BooksOf(run))
  {
    hide LegalRun, TapeOf, BooksOf;
    EveryRun(run);
  }

  // On each leg, everything settlements and recovered claims ever put in the reserve is still in it, was
  // paid to a redeemer or was written off in a haircut; no other flow touches it.
  lemma {:induction false} ReserveFlows(run: seq<Emission>)
    requires LegalRun(run)
    ensures var t := TapeOf(run);
            && Sum(t.epochs, SettledOn(StockLeg)) + Sum(t.strands, RecoveredOn(StockLeg))
               == t.funds.reservedAssets + Sum(t.users, RedeemedOn(StockLeg)) + t.funds.lifetimeHaircutAssets
            && Sum(t.epochs, SettledOn(UsdgLeg)) + Sum(t.strands, RecoveredOn(UsdgLeg))
               == t.funds.usdgReservedForQueue + Sum(t.users, RedeemedOn(UsdgLeg))
  {
    hide LegalRun, TapeOf, BooksOf;
    EveryRun(run);
    FlowBothLegs(TapeOf(run));
  }

  lemma {:induction false} FlowBothLegs(t: Db)
    requires FlowLaw(t)
    ensures Sum(t.epochs, SettledOn(StockLeg)) + Sum(t.strands, RecoveredOn(StockLeg))
         == t.funds.reservedAssets + Sum(t.users, RedeemedOn(StockLeg)) + t.funds.lifetimeHaircutAssets
    ensures Sum(t.epochs, SettledOn(UsdgLeg)) + Sum(t.strands, RecoveredOn(UsdgLeg))
         == t.funds.usdgReservedForQueue + Sum(t.users, RedeemedOn(UsdgLeg))
  {
  }

  // ---------------------------------------------------------------- the queue and the supply

  // Every share is some holder's or in the vault's escrow.
  lemma {:induction false} SharesConserved(run: seq<Emission>)
    requires LegalRun(run)
    ensures var t := TapeOf(run); t.supply.totalShares == Sum(t.users, SharesOf()) + BooksOf(run).tokens.vaultShares
  {
    hide LegalRun, TapeOf, BooksOf;
    QueueHolds(run);
    OpenEpochConserved(TapeOf(run), BooksOf(run));
  }

  // The queue counter, the open epoch's row and its holders' rows agree.
  lemma {:induction false} QueueConserved(run: seq<Emission>)
    requires LegalRun(run)
    ensures var t := TapeOf(run); t.supply.queuedShares == Sum(t.users, QueuedIn(t.supply.epochId))
    ensures var t := TapeOf(run); t.supply.queuedShares == EpochOf(t, t.supply.epochId).sharesQueued
  {
    hide LegalRun, TapeOf, BooksOf;
    QueueHolds(run);
    OpenEpochConserved(TapeOf(run), BooksOf(run));
  }

  // A settled epoch's shares are claimed or still queued in it by somebody.
  lemma {:induction false} EpochConserved(run: seq<Emission>, id: nat)
    requires LegalRun(run) && id in TapeOf(run).epochs && TapeOf(run).epochs[id].settled
    ensures var t := TapeOf(run); t.epochs[id].sharesClaimed + Sum(t.users, QueuedIn(id)) == t.epochs[id].sharesSettled
  {
    hide LegalRun, TapeOf, BooksOf;
    QueueHolds(run);
    SettledEpochConserved(TapeOf(run), BooksOf(run), id);
  }

  lemma {:induction false} QueueHolds(run: seq<Emission>)
    requires LegalRun(run)
    ensures QueueLaw(TapeOf(run), BooksOf(run)) && ShareLaw(TapeOf(run), BooksOf(run))
  {
    hide LegalRun, TapeOf, BooksOf;
    EveryRun(run);
  }

  lemma {:induction false} OpenEpochConserved(t: Db, g: Books)
    requires QueueLaw(t, g) && ShareLaw(t, g)
    ensures t.supply.queuedShares == EpochOf(t, t.supply.epochId).sharesQueued == Sum(t.users, QueuedIn(t.supply.epochId))
    ensures t.supply.totalShares == Sum(t.users, SharesOf()) + g.tokens.vaultShares
  {
    assert Sum(t.users, QueuedIn(g.queue.epoch)) == HeldIn(g.queue, g.queue.epoch);
  }

  lemma {:induction false} SettledEpochConserved(t: Db, g: Books, id: nat)
    requires QueueLaw(t, g) && id in t.epochs && t.epochs[id].settled
    ensures t.epochs[id].sharesClaimed + Sum(t.users, QueuedIn(id)) == t.epochs[id].sharesSettled
  {
    assert SettledMirrors(t.epochs[id], g.queue.settled[id]);
    assert Sum(t.users, QueuedIn(id)) == HeldIn(g.queue, id);
  }

  // Every row of the users table is what the contract's own books say of that holder.
  lemma {:induction false} UserRowsMirror(run: seq<Emission>, a: Address)
    requires LegalRun(run) && a.Account?
    ensures var u, g := UserOf(TapeOf(run), a), BooksOf(run);
            && u.shares == BalanceOf(g.tokens, a)
            && (a in g.queue.slots ==> u.queuedEpoch == Some(g.queue.slots[a].epoch) && u.queuedShares == g.queue.slots[a].shares)
            && (a !in g.queue.slots ==> u.queuedEpoch == None && u.queuedShares == 0)
            && u.strandWad == OwedTo(g.queue, a).wad
            && (u.strandWad > 0 ==> u.strandGen == Some(OwedTo(g.queue, a).gen))
            && u.deferredUsdg <= OwedTo(g.queue, a).usdg
  {
    hide LegalRun, TapeOf, BooksOf;
    EveryRun(run);
    var t, g := TapeOf(run), BooksOf(run);
    assert UserMirrors(Get(t.users, a, BARE_USER), g.queue, a);
    assert Get(t.users, a, BARE_USER).shares == if a.Account? then BalanceOf(g.tokens, a) else 0;
  }

  // The two lifetime figures of the vault row are the sums of the rows behind them.
  lemma {:induction false} LifetimeClaims(run: seq<Emission>)
    requires LegalRun(run)
    ensures var t := TapeOf(run);
            && t.funds.totalUsdgClaimed == Sum(t.users, ClaimedOf()) + Sum(t.epochs, EscrowTaken())
            && t.funds.lifetimeHaircutAssets == Sum(t.users, HaircutOf())
  {
    hide LegalRun, TapeOf, BooksOf;
    EveryRun(run);
  }

  // ---------------------------------------------------------------- written and sold

  // Each week's own write count is Seaport's fill count, which is its listings', plus what fills still under way
  // have written; the premium on the week and on the vault row is what those listings paid.
  lemma {:induction false} WrittenIsSold(run: seq<Emission>, n: nat)
    requires LegalRun(run)
    ensures var t := TapeOf(run);
            && CycleOf(t, n).contractsSold == Sum(t.listings, FilledFor(n))
            && CycleOf(t, n).contractsWritten
               == CycleOf(t, n).contractsSold + (if n == t.week.cycleNumber then Unsold(BooksOf(run).machine) else 0)
            && CycleOf(t, n).collateral == CycleOf(t, n).contractsWritten * 1_000_000_000_000_000_000
            && CycleOf(t, n).premiumGross == Sum(t.listings, ProceedsFor(n))
            && t.money.lifetimePremiumGross == Sum(t.cycles, PremiumOf())
            && CycleOf(t, n).contractsAssigned <= CycleOf(t, n).contractsWritten
  {
    hide LegalRun, TapeOf, BooksOf;
    WeeksHold(run);
    SalesOfCycle(TapeOf(run), BooksOf(run), n);
  }

  lemma {:induction false} SalesHold(run: seq<Emission>)
    requires LegalRun(run)
    ensures SalesLaw(TapeOf(run), BooksOf(run))
  {
    hide LegalRun, TapeOf, BooksOf;
    EveryRun(run);
  }

  lemma {:induction false} SalesOfCycle(t: Db, g: Books, n: nat)
    requires PhaseLaw(t, g) && SalesLaw(t, g)
    ensures CycleOf(t, n).contractsSold == Sum(t.listings, FilledFor(n))
    ensures CycleOf(t, n).contractsWritten
         == CycleOf(t, n).contractsSold + if n == t.week.cycleNumber then Unsold(g.machine) else 0
    ensures CycleOf(t, n).collateral == CycleOf(t, n).contractsWritten * LOT
    ensures CycleOf(t, n).premiumGross == Sum(t.listings, ProceedsFor(n))
    ensures t.money.lifetimePremiumGross == Sum(t.cycles, PremiumOf())
    ensures CycleOf(t, n).contractsAssigned <= CycleOf(t, n).contractsWritten
  {
    assert CycleSells(CycleOf(t, n), n, g.machine);
    assert Sum(t.listings, FilledFor(n)) == CycleOf(t, n).contractsSold;
    assert Sum(t.listings, ProceedsFor(n)) == CycleOf(t, n).premiumGross;
  }

  // What the vault row says is locked is what it says is written, one lot a contract, at every moment.
  lemma {:induction false} LockedIsWritten(run: seq<Emission>)
    requires LegalRun(run)
    ensures var w := TapeOf(run).week; w.lockedCollateral == w.contractsWritten * 1_000_000_000_000_000_000
  {
    hide LegalRun, TapeOf, BooksOf;
    WeeksHold(run);
    ClaimIsWritten(TapeOf(run), BooksOf(run));
  }

  lemma {:induction false} ClaimIsWritten(t: Db, g: Books)
    requires PhaseLaw(t, g) && SalesLaw(t, g)
    ensures t.week.lockedCollateral == t.week.contractsWritten * LOT
  {
    assert CycleSells(CycleOf(t, g.machine.cycle), g.machine.cycle, g.machine);
  }

  // So a week starts within any policy, and fills that keep to capacity keep it there (Capacity.dfy).
  lemma {:induction false} NewWeekWithinPolicy(run: seq<Emission>, p: Policy)
    requires LegalRun(run) && TapeOf(run).week.contractsWritten == 0 && p.maxUtilizationBps <= BPS
    ensures WithinPolicy(TapeOf(run), p)
  {
    hide LegalRun, TapeOf, BooksOf;
    LockedIsWritten(run);
  }

  // Once a listing reads filled it does for ever, through any tape at all, legal or not.
  lemma {:induction false} FilledStaysFilled(run: seq<Emission>, more: seq<Emission>, h: Hash)
    requires h in TapeOf(run).listings && TapeOf(run).listings[h].status == ListingStatus.Filled
    ensures h in TapeOf(run + more).listings && TapeOf(run + more).listings[h].status == ListingStatus.Filled
    decreases |more|
  {
    hide ListingsAfter, FilledIsFull;
    if more == [] {
      assert run + more == run;
    } else {
      var n := |more| - 1;
      var t, e := TapeOf(run + more[..n]), more[n];
      FilledStaysFilled(run, more[..n], h);
      FilledMeansFull(run + more[..n]);
      FilledForEver(t, e.tx, e.log, h);
      assert (run + more)[..|run + more| - 1] == run + more[..n];
    }
  }

  lemma {:induction false} FilledMeansFull(run: seq<Emission>)
    ensures FilledIsFull(TapeOf(run).listings)
  {
    if run != [] {
      var n := |run| - 1;
      FilledMeansFull(run[..n]);
      FilledIsFullKept(TapeOf(run[..n]), run[n].tx, run[n].log);
    }
  }

  // A listing never oversells, is paid its exact unit price, and reads filled exactly when sold out.
  lemma {:induction false} ListingExact(run: seq<Emission>, h: Hash)
    requires LegalRun(run) && h in TapeOf(run).listings
    ensures var l := TapeOf(run).listings[h];
            && l.contractsFilled <= l.amount
            && l.proceedsUsdg * l.amount == l.grossUsdg * l.contractsFilled
            && (l.status == ListingStatus.Filled <==> l.contractsFilled == l.amount)
  {
    hide LegalRun, TapeOf, BooksOf;
    SalesHold(run);
    OrderOf(TapeOf(run), BooksOf(run), h);
    PricedExactly(TapeOf(run).listings[h], BooksOf(run).orders[h]);
  }

  lemma {:induction false} OrderOf(t: Db, g: Books, h: Hash)
    requires SalesLaw(t, g) && h in t.listings
    ensures h in g.orders && ListingMirrors(t.listings[h], g.orders[h])
  {
  }

  lemma {:induction false} PricedExactly(l: Listing, o: Order)
    requires ListingMirrors(l, o)
    ensures l.contractsFilled <= l.amount
    ensures l.proceedsUsdg * l.amount == l.grossUsdg * l.contractsFilled
    ensures l.status == ListingStatus.Filled <==> l.contractsFilled == l.amount
  {
    Regroup(o.unitPrice, o.filled, o.amount);
  }

  lemma {:induction false} Regroup(a: nat, b: nat, c: nat)
    ensures (a * b) * c == (a * c) * b
  {
  }

  // ---------------------------------------------------------------- weeks

  // The cycle counters count the rows, there is one row per week from 1 on, and week 0 has none.
  lemma {:induction false} WeeksCounted(run: seq<Emission>)
    requires LegalRun(run)
    ensures var t := TapeOf(run); var y := t.tally;
            && (forall n: nat :: n in t.cycles <==> 1 <= n <= y.cyclesWritten)
            && y.cyclesWritten == y.cyclesFilled + y.cyclesUnfilled + (if t.week.phase == Phase.Idle then 0 else 1)
            && y.cyclesUnfilled == Sum(t.cycles, UnfilledWeek())
            && y.cyclesFilled == Sum(t.cycles, FilledWeek())
            && y.cyclesAssigned == Sum(t.cycles, AssignedWeek())
            && y.cyclesStranded == t.week.strandGen
  {
    hide LegalRun, TapeOf, BooksOf;
    EveryRun(run);
  }

  // A week's row is harvested exactly when it is over, and its status is the verdict of its own figures.
  lemma {:induction false} WeekVerdict(run: seq<Emission>, n: nat)
    requires LegalRun(run) && n in TapeOf(run).cycles
    ensures var t := TapeOf(run); var c := t.cycles[n];
            && (c.harvested <==> n < t.week.cycleNumber || t.week.phase == Phase.Idle)
            && (!c.harvested ==> c.status == if c.contractsSold > 0 then CycleStatus.Filled else CycleStatus.Listed)
            && (c.harvested ==> (c.status == CycleStatus.Stranded <==> t.week.strandedCycleNumber == Some(n)))
            && (c.harvested && c.status != CycleStatus.Stranded ==>
                  && (c.status == CycleStatus.Assigned <==> c.contractsAssigned > 0)
                  && (c.status == CycleStatus.Unfilled <==> c.contractsWritten == 0)
                  && c.status in {CycleStatus.Assigned, CycleStatus.Closed, CycleStatus.Unfilled})
  {
    hide LegalRun, TapeOf, BooksOf;
    EveryRun(run);
    assert RowDecided(TapeOf(run).cycles[n], n, BooksOf(run).machine);
    assert CycleSells(CycleOf(TapeOf(run), n), n, BooksOf(run).machine);
  }

  // Outside its own stranded claim's retry, a published week's verdict and money stand still exactly when the log
  // is not a checkpoint batched after that retry in its transaction.
  lemma {:induction false} PublishedWeekFrozen(run: seq<Emission>, e: Emission, n: nat)
    requires LegalRun(run) && Legal(BooksOf(run), e)
    requires n in TapeOf(run).cycles && TapeOf(run).cycles[n].harvested
    requires n == BooksOf(run).machine.cycle ==> !OfRetry(BooksOf(run), e)
    ensures var after := Reduce(TapeOf(run), e.tx, e.log).cycles;
            && n in after
            && (SameMoney(TapeOf(run).cycles[n], after[n]) <==> !(n == BooksOf(run).machine.cycle && Ambiguous(BooksOf(run), e)))
  {
    hide LegalRun, TapeOf, BooksOf;
    WeeksHold(run);
    HarvestedWeekFrozen(TapeOf(run), BooksOf(run), e, n);
  }

  lemma {:induction false} WeeksHold(run: seq<Emission>)
    requires LegalRun(run)
    ensures PhaseLaw(TapeOf(run), BooksOf(run)) && SalesLaw(TapeOf(run), BooksOf(run)) && CycleLaw(TapeOf(run), BooksOf(run))
  {
    hide LegalRun, TapeOf, BooksOf;
    EveryRun(run);
  }

  // The first Valorem bucket a week's fills are seen in is kept for ever, through any tape, legal or not.
  lemma {:induction false} FirstBucketStays(run: seq<Emission>, more: seq<Emission>, n: nat)
    requires CycleOf(TapeOf(run), n).bucketIndex.Some?
    ensures CycleOf(TapeOf(run + more), n).bucketIndex == CycleOf(TapeOf(run), n).bucketIndex
    decreases |more|
  {
    hide CycleOf, Reduce;
    if more == [] {
      assert run + more == run;
    } else {
      var k := |more| - 1;
      FirstBucketStays(run, more[..k], n);
      BucketOfWeek(TapeOf(run + more[..k]), more[k], n);
      assert (run + more)[..|run + more| - 1] == run + more[..k];
    }
  }

  // And no exercise is counted towards a week before its bucket is known.
  lemma {:induction false} NoBucketNoCount(run: seq<Emission>, n: nat)
    ensures CycleOf(TapeOf(run), n).bucketIndex == None ==> CycleOf(TapeOf(run), n).bucketAssigned == 0
  {
    if run != [] {
      hide CycleOf, Reduce;
      var k := |run| - 1;
      NoBucketNoCount(run[..k], n);
      BucketOfWeek(TapeOf(run[..k]), run[k], n);
    }
  }

  lemma {:induction false} BucketOfWeek(t: Db, e: Emission, n: nat)
    ensures var c, d := CycleOf(t, n), CycleOf(Reduce(t, e.tx, e.log), n);
            && (c.bucketIndex.Some? ==> d.bucketIndex == c.bucketIndex)
            && (c.bucketIndex == None && c.bucketAssigned == 0 && d.bucketIndex == None ==> d.bucketAssigned == 0)
  {
    hide CycleRowAfter;
    RowIs(t, e.tx, e.log, n);
    BucketOfRow(t, e.tx, e.log, CycleOf(t, n));
  }

  lemma {:induction false} BucketOfRow(t: Db, tx: Hash, log: Log, c: Cycle)
    ensures var d := CycleRowAfter(t, tx, log, c);
            && (c.bucketIndex.Some? ==> d.bucketIndex == c.bucketIndex)
            && (c.bucketIndex == None && c.bucketAssigned == 0 && d.bucketIndex == None ==> d.bucketAssigned == 0)
  {
  }

  // The harvest rows alone retell every week and every lifetime figure, on any tape, legal or not: a
  // week's columns are its rows accumulated up to its terminal one, and its retry's after that.
  lemma {:induction false} HarvestRowsRetell(run: seq<Emission>)
    ensures HarvestLaw(TapeOf(run))
  {
    if run != [] {
      var n := |run| - 1;
      HarvestRowsRetell(run[..n]);
      HarvestLawKept(TapeOf(run[..n]), run[n].tx, run[n].log);
    }
  }

  // So flooring costs a published week little: swept in k harvests at one fee rate, its fee is at most k - 1
  // units short of one sweep's, and its credited figure per share within k of its two parts.
  lemma {:induction false} PublishedWeekFloors(run: seq<Emission>, n: nat, bps: nat)
    requires n != 0 && bps <= BPS
    requires var sweeps := SweepsOf(TapeOf(run).harvests, n); sweeps != [] && AllCharged(sweeps, bps)
    ensures var sweeps, c := SweepsOf(TapeOf(run).harvests, n), CycleOf(TapeOf(run), n).totals;
            && 0 <= StrikeOf(sweeps)
            && HarvestFee(GrossOf(sweeps), StrikeOf(sweeps), bps) - (|sweeps| - 1) <= c.fee
            && c.fee <= HarvestFee(GrossOf(sweeps), StrikeOf(sweeps), bps)
            && 0 <= c.usdgPerShare - c.premiumNetPerShare - StrikePerShare(sweeps) <= |sweeps|
  {
    hide TapeOf, SweepsOf, SweptBy, AllCharged, HarvestFee;
    HarvestRowsRetell(run);
    var rows := TapeOf(run).harvests;
    assert WeekTold(rows, n).totals == CycleOf(TapeOf(run), n).totals;
    ToldBySweeps(rows, n);
    SplittingLosesUnderOneUnitEach(SweepsOf(rows, n), bps);
    PerShareWithinSweeps(SweepsOf(rows, n), bps);
  }

  // ---------------------------------------------------------------- inference

  // The published origin of the i-th harvest is the entry point that emitted it, except exactly the
  // checkpoints batched after a retry in its own transaction, which all read as that retry's.
  lemma {:induction false} HarvestOriginsExact(run: seq<Emission>, i: nat)
    requires LegalRun(run) && i < |TapeOf(run).harvests|
    ensures var r, u := TapeOf(run).harvests[i], BooksOf(run).truth;
            && i < |u.origins|
            && (r.origin == u.origins[i] <==> i !in u.ambiguous)
            && (r.terminal <==> u.origins[i] == HarvestOrigin.RollClose)
            && (i in u.ambiguous ==> r.origin == HarvestOrigin.Retry && u.origins[i] == HarvestOrigin.Checkpoint)
  {
    hide LegalRun, TapeOf, BooksOf;
    EveryRun(run);
  }

  // The week an epoch is published under is the one whose close settled it (none for a flat
  // settlement), except exactly the flat settlements batched after a close in its own transaction.
  lemma {:induction false} SettlementWeeksExact(run: seq<Emission>, id: nat)
    requires LegalRun(run) && id in TapeOf(run).epochs && TapeOf(run).epochs[id].settled
    ensures var u := BooksOf(run).truth;
            && id in u.settledIn
            && (TapeOf(run).epochs[id].cycleNumber == u.settledIn[id] <==> id !in u.misdated)
  {
    hide LegalRun, TapeOf, BooksOf;
    QueueHolds(run);
    DatesHold(run);
    assert Dated(TapeOf(run).epochs, BooksOf(run).truth, id);
  }

  lemma {:induction false} DatesHold(run: seq<Emission>)
    requires LegalRun(run)
    ensures DateLaw(TapeOf(run).epochs, BooksOf(run).queue, BooksOf(run).truth)
  {
    hide LegalRun, TapeOf, BooksOf;
    EveryRun(run);
  }

  // ---------------------------------------------------------------- principal and premium

  // No checkpoint of week n was batched, in a retry's own transaction, after a recovery that paid live shares
  // something. Each log can be checked against its transaction before it happens.
  predicate NeverLeaks(run: seq<Emission>, n: nat) {
    forall i :: 0 <= i < |run| ==> LeaksNothing(BooksOf(run[..i]), run[i], n)
  }

  predicate LeaksNothing(g: Books, e: Emission, n: nat) {
    Ambiguous(g, e) && e.log.cycleNumber == n ==> g.txs.live == 0
  }

  // No such checkpoint's fee exceeds the premium left beside what is misread.
  predicate NeverClamps(run: seq<Emission>, n: nat) {
    forall i :: 0 <= i < |run| ==> FeeFits(BooksOf(run[..i]), run[i], n)
  }

  predicate FeeFits(g: Books, e: Emission, n: nat) {
    Ambiguous(g, e) && e.log.cycleNumber == n ==> e.log.fee + Min(g.txs.live, e.log.gross) <= e.log.gross
  }

  // Strike USDG is principal: between entry points everything the claims returned is published as strike
  // proceeds or in the queue's reserve, up to exactly what leaked, so exactly when no week ever leaked.
  lemma {:induction false} PrincipalConserved(run: seq<Emission>)
    requires LegalRun(run) && BooksOf(run).machine.pending == Rest
    ensures var t, u := TapeOf(run), BooksOf(run).truth; var y := t.money;
            && y.lifetimeAssignmentUsdg + Total(u.leaks) == y.lifetimeStrikeProceeds + Sum(t.strands, QueuePart())
            && (y.lifetimeAssignmentUsdg == y.lifetimeStrikeProceeds + Sum(t.strands, QueuePart())
                <==> forall n: nat :: NeverLeaks(run, n))
  {
    hide LegalRun, TapeOf, BooksOf, NeverLeaks, Total, Sum;
    EveryRun(run);
    LeaksNowhere(run);
  }

  // What is credited to holders is premium plus strike proceeds, and every week's take is premium, fee and
  // strike proceeds, up to exactly what was clamped: each holds exactly when no week's fee ever was.
  lemma {:induction false} CreditedConserved(run: seq<Emission>)
    requires LegalRun(run)
    ensures var t, u := TapeOf(run), BooksOf(run).truth; var y := t.money;
            && y.lifetimeCreditedUsdg + Total(u.clamps) == y.lifetimePremiumNet + y.lifetimeStrikeProceeds
            && (y.lifetimeCreditedUsdg == y.lifetimePremiumNet + y.lifetimeStrikeProceeds <==> forall n: nat :: NeverClamps(run, n))
            && ((forall n: nat :: n in t.cycles ==> AddsUp(t.cycles[n].totals)) <==> forall n: nat :: NeverClamps(run, n))
  {
    hide LegalRun, TapeOf, BooksOf, NeverClamps, Total;
    EveryRun(run);
    RowsAddExactly(TapeOf(run), BooksOf(run));
    ClampsNowhere(run);
  }

  // Week by week: the row's take adds up, to exactly what was clamped in that week, and so exactly when no
  // checkpoint of that week was.
  lemma {:induction false} WeekAddsUpExactly(run: seq<Emission>, n: nat)
    requires LegalRun(run) && n in TapeOf(run).cycles
    ensures var w, u := TapeOf(run).cycles[n].totals, BooksOf(run).truth;
            && w.creditedUsdg == w.harvestGross - w.fee && w.harvestPremiumGross == w.harvestGross - w.strikeProceeds
            && w.harvestGross + InWeek(u.clamps, n) == w.premiumNet + w.fee + w.strikeProceeds
            && (AddsUp(w) <==> NeverClamps(run, n))
  {
    hide LegalRun, TapeOf, BooksOf, NeverClamps;
    EveryRun(run);
    ClampExact(run, n);
    assert RowAdds(CycleOf(TapeOf(run), n), InWeek(BooksOf(run).truth.clamps, n));
  }

  // What a decided week's claim has paid live shares, from the published rows.
  function PaidLiveShares(t: Db, c: Cycle): int {
    match c.strandGen
    case None => c.assignmentUsdg
    case Some(gen) =>
      if gen !in t.strands || !t.strands[gen].recovered then 0
      else var s := t.strands[gen]; s.usdgIn - s.usdgIn * s.queueWad / 1_000_000_000_000_000_000
  }

  // A decided week's strike proceeds are what its own claim paid live shares, up to exactly what leaked into that
  // week, and so exactly when nothing did; other weeks' leaks are theirs.
  lemma {:induction false} WeekPrincipal(run: seq<Emission>, n: nat)
    requires LegalRun(run) && BooksOf(run).machine.pending == Rest
    requires n in TapeOf(run).cycles && TapeOf(run).cycles[n].harvested
    ensures var t, c := TapeOf(run), TapeOf(run).cycles[n];
            && (c.strandGen.Some? ==> c.strandGen.value in t.strands && t.strands[c.strandGen.value].cycleNumber == n)
            && c.totals.strikeProceeds == PaidLiveShares(t, c) + InWeek(BooksOf(run).truth.leaks, n)
            && (c.totals.strikeProceeds == PaidLiveShares(t, c) <==> NeverLeaks(run, n))
  {
    hide LegalRun, TapeOf, BooksOf, NeverLeaks;
    EveryRun(run);
    LeakExact(run, n);
    var t, g := TapeOf(run), BooksOf(run);
    assert WeekOk(CycleOf(t, n), n, t.strands, g.machine, InWeek(g.truth.leaks, n));
  }

  lemma {:induction false} OneMoreLog(run: seq<Emission>, n: nat)
    requires run != []
    ensures var k := |run| - 1;
            && (NeverLeaks(run, n) <==> NeverLeaks(run[..k], n) && LeaksNothing(BooksOf(run[..k]), run[k], n))
            && (NeverClamps(run, n) <==> NeverClamps(run[..k], n) && FeeFits(BooksOf(run[..k]), run[k], n))
  {
    hide BooksOf, LeaksNothing, FeeFits;
    var k := |run| - 1;
    assert forall i :: 0 <= i < k ==> run[..k][..i] == run[..i];
  }

  lemma {:induction false} LeakExact(run: seq<Emission>, n: nat)
    requires LegalRun(run)
    ensures InWeek(BooksOf(run).truth.leaks, n) == 0 <==> NeverLeaks(run, n)
    ensures NeverLeaks(run, n) ==> InWeek(BooksOf(run).truth.clamps, n) == 0
  {
    if run != [] {
      hide NeverLeaks, NeverClamps, NextMachine, NextOrders, NextTokens, NextQueue, NextTxs, NextTruth, LegalLog, InWeek;
      hide LeaksNothing, FeeFits;
      var k := |run| - 1;
      LeakExact(run[..k], n);
      OneMoreLog(run, n);
      MisreadStep(BooksOf(run[..k]), run[k], n);
    }
  }

  lemma {:induction false} ClampExact(run: seq<Emission>, n: nat)
    requires LegalRun(run)
    ensures InWeek(BooksOf(run).truth.clamps, n) == 0 <==> NeverClamps(run, n)
  {
    if run != [] {
      hide NeverLeaks, NeverClamps, NextMachine, NextOrders, NextTokens, NextQueue, NextTxs, NextTruth, LegalLog, InWeek;
      hide LeaksNothing, FeeFits;
      var k := |run| - 1;
      ClampExact(run[..k], n);
      OneMoreLog(run, n);
      MisreadStep(BooksOf(run[..k]), run[k], n);
    }
  }

  lemma {:induction false} LeaksNowhere(run: seq<Emission>)
    requires LegalRun(run)
    ensures Total(BooksOf(run).truth.leaks) == 0 <==> forall n: nat :: NeverLeaks(run, n)
  {
    hide LegalRun, BooksOf, NeverLeaks, Total, InWeek;
    var leaks := BooksOf(run).truth.leaks;
    TotalZero(leaks);
    forall n: nat ensures InWeek(leaks, n) == 0 <==> NeverLeaks(run, n) {
      LeakExact(run, n);
    }
    if forall n: nat :: NeverLeaks(run, n) {
      assert forall n: nat :: InWeek(leaks, n) == 0;
    } else {
      var n: nat :| !NeverLeaks(run, n);
      assert InWeek(leaks, n) != 0;
    }
  }

  lemma {:induction false} ClampsNowhere(run: seq<Emission>)
    requires LegalRun(run)
    ensures Total(BooksOf(run).truth.clamps) == 0 <==> forall n: nat :: NeverClamps(run, n)
  {
    hide LegalRun, BooksOf, NeverClamps, Total, InWeek;
    var clamps := BooksOf(run).truth.clamps;
    TotalZero(clamps);
    forall n: nat ensures InWeek(clamps, n) == 0 <==> NeverClamps(run, n) {
      ClampExact(run, n);
    }
    if forall n: nat :: NeverClamps(run, n) {
      assert forall n: nat :: InWeek(clamps, n) == 0;
    } else {
      var n: nat :| !NeverClamps(run, n);
      assert InWeek(clamps, n) != 0;
    }
  }

  lemma {:induction false} MisreadStep(g: Books, e: Emission, n: nat)
    requires Legal(g, e)
    ensures var u := NextTruth(g, e);
            && InWeek(u.leaks, n) >= InWeek(g.truth.leaks, n) && InWeek(u.clamps, n) >= InWeek(g.truth.clamps, n)
            && (InWeek(u.leaks, n) == InWeek(g.truth.leaks, n) <==> LeaksNothing(g, e, n))
            && (InWeek(u.clamps, n) == InWeek(g.truth.clamps, n) <==> FeeFits(g, e, n))
            && (LeaksNothing(g, e, n) ==> FeeFits(g, e, n))
  {
  }
}
