// Every week's row read straight off the logs of its own week, over every legal run: week n is the stretch
// of the run from the n-th RollOpen to the next.
module WeekHistory {
  import opened Common
  import opened History
  import opened Lifecycle
  import opened Harvest
  import opened Rows
  import opened Logs
  import opened Reducers
  import opened Chain
  import opened PhaseMirror
  import opened SalesLedger
  import opened CycleLedger
  import opened VaultHistory
  import opened Runs
  import opened Theorems

  function During(run: seq<Emission>, n: nat): seq<Emission> {
    if run == [] then []
    else During(run[..|run| - 1], n) + if Added(run, Armed()) == n then [run[|run| - 1]] else []
  }

  // ---------------------------------------------------------------- what the logs of a week say

  function OptionArmed(): Emission -> Option<nat> { (e: Emission) => if e.log.RollOpen? then Some(e.log.optionId) else None }

  function ClaimWritten(): Emission -> Option<nat> { (e: Emission) => if e.log.CallsWritten? then Some(e.log.claimKey) else None }

  function ContractsWritten(): Emission -> int { (e: Emission) => if e.log.CallsWritten? then e.log.contracts else 0 }

  function CollateralLocked(): Emission -> int { (e: Emission) => if e.log.CallsWritten? then e.log.collateral else 0 }

  function Writes(): Emission -> int { (e: Emission) => if e.log.CallsWritten? then 1 else 0 }

  function VaultFills(): Emission -> int { (e: Emission) => if e.log.OrderFulfilled? && e.log.offerer == Vault then 1 else 0 }

  function CallsBought(): Emission -> int {
    (e: Emission) => if e.log.OrderFulfilled? && e.log.offerer == Vault then Added(e.log.offer, CallsSold()) else 0
  }

  datatype Offer = Offer(orderHash: Hash, amount: nat, gross: nat, seq_: nat)

  function Offered(): Emission -> Option<Offer> {
    (e: Emission) => if e.log.ListingApproved? then Some(Offer(e.log.orderHash, e.log.amount, e.log.gross, e.log.seq_)) else None
  }

  function AssignedCount(): Emission -> Option<nat> { (e: Emission) => if e.log.RollClose? then Some(e.log.assignedCount) else None }

  // What the claim returned: reported by Clear, and by the close (nothing yet when the claim stranded).
  function Returned(): Emission -> Option<(nat, nat)> {
    (e: Emission) => if e.log.RollClose? || e.log.ClearClaimRedeemed? then Some((e.log.assets, e.log.usdg)) else None
  }

  function StrandedAs(): Emission -> Option<nat> { (e: Emission) => if e.log.ClaimStranded? then Some(e.log.gen) else None }

  // ---------------------------------------------------------------- the week a log belongs to

  lemma {:induction false} WeekIsRollsSoFar(run: seq<Emission>)
    requires LegalRun(run)
    ensures Added(run, Armed()) == BooksOf(run).machine.cycle
  {
    hide LegalRun, TapeOf, BooksOf;
    EveryRun(run);
    LifetimesRetold(run);
  }

  lemma {:induction false} OneMoreLog(run: seq<Emission>, n: nat, figure: Emission -> int)
    requires run != []
    ensures var k := |run| - 1;
            Added(During(run, n), figure)
            == Added(During(run[..k], n), figure) + if Added(run, Armed()) == n then figure(run[k]) else 0
  {
    var before := During(run[..|run| - 1], n);
    assert (before + [run[|run| - 1]])[..|before|] == before;
    assert before + [] == before;
  }

  lemma {:induction false} OneMoreAnswer<T>(run: seq<Emission>, n: nat, answer: Emission -> Option<T>)
    requires run != []
    ensures var k := |run| - 1;
            Latest(During(run, n), answer)
            == if Added(run, Armed()) == n && answer(run[k]).Some? then answer(run[k]) else Latest(During(run[..k], n), answer)
  {
    var before := During(run[..|run| - 1], n);
    assert (before + [run[|run| - 1]])[..|before|] == before;
    assert before + [] == before;
  }

  // One log under way: the run before it, its tables and books, and the week it leaves the vault in.
  ghost predicate Step(run: seq<Emission>, t: Db, g: Books, e: Emission) {
    && run != [] && LegalRun(run)
    && t == TapeOf(run[..|run| - 1]) && g == BooksOf(run[..|run| - 1]) && e == run[|run| - 1]
  }

  lemma {:induction false} StepHolds(run: seq<Emission>, t: Db, g: Books, e: Emission)
    requires Step(run, t, g, e)
    ensures LegalRun(run[..|run| - 1]) && Legal(g, e) && PhaseLaw(t, g) && SalesLaw(t, g) && CycleLaw(t, g)
    ensures TapeOf(run) == Reduce(t, e.tx, e.log)
    ensures Added(run, Armed()) == NextMachine(g.machine, e.log).cycle
  {
    hide Reduce, NextMachine, Legal;
    WeekIsRollsSoFar(run);
    WeeksHold(run[..|run| - 1]);
  }

  // ---------------------------------------------------------------- arming and listing

  lemma {:induction false} WeekArmed(run: seq<Emission>, n: nat)
    requires LegalRun(run) && 1 <= n
    ensures var c, week := CycleOf(TapeOf(run), n), During(run, n);
            && c.optionId == Latest(week, OptionArmed()) && c.terms == Or(Latest(week, Terms()), NO_TERMS)
            && (match Latest(week, Offered())
                case None => c.orderHash == None && c.listingCount == c.listedContracts == c.listedGrossUsdg == c.listedUnitPriceUsdg == 0
                case Some(o) =>
                  && c.orderHash == Some(o.orderHash) && c.listingCount == o.seq_
                  && c.listedContracts == o.amount && c.listedGrossUsdg == o.gross == c.listedUnitPriceUsdg * o.amount)
  {
    if run == [] {
      assert TapeOf(run) == EMPTY_DB;
      return;
    }
    hide LegalRun, TapeOf, BooksOf, Reduce, Legal, During, Latest;
    var k := |run| - 1;
    var t, g, e := TapeOf(run[..k]), BooksOf(run[..k]), run[k];
    StepHolds(run, t, g, e);
    WeekArmed(run[..k], n);
    OneMoreAnswer(run, n, OptionArmed());
    OneMoreAnswer(run, n, Terms());
    OneMoreAnswer(run, n, Offered());
    ArmingStep(t, g, e, n);
  }

  lemma ArmingStep(t: Db, g: Books, e: Emission, n: nat)
    requires PhaseLaw(t, g) && SalesLaw(t, g) && Legal(g, e) && 1 <= n
    ensures var c, d := CycleOf(t, n), CycleOf(Reduce(t, e.tx, e.log), n);
            if n != NextMachine(g.machine, e.log).cycle then d == c
            else
              && d.optionId == (if OptionArmed()(e).Some? then OptionArmed()(e) else c.optionId)
              && d.terms == Or(Terms()(e), c.terms)
              && (match Offered()(e)
                  case None => d.orderHash == c.orderHash && d.listingCount == c.listingCount && d.listedContracts == c.listedContracts
                               && d.listedGrossUsdg == c.listedGrossUsdg && d.listedUnitPriceUsdg == c.listedUnitPriceUsdg
                  case Some(o) => d.orderHash == Some(o.orderHash) && d.listingCount == o.seq_ && d.listedContracts == o.amount
                                  && d.listedGrossUsdg == o.gross == d.listedUnitPriceUsdg * o.amount)
  {
    hide CycleRowAfter, LegalHarvest, LegalRollClose, LegalFill, LegalTransfer, LegalEntrySettled, ListingSums, CycleSells, ListingMirrors;
    TouchesCurrent(t, g, e);
    RowIs(t, e.tx, e.log, n);
    ArmingOfRow(t, e, CycleOf(t, n));
    if e.log.ListingApproved? {
      ExactUnit(e.log.gross, e.log.amount);
    }
  }

  lemma ArmingOfRow(t: Db, e: Emission, c: Cycle)
    ensures var d := CycleRowAfter(t, e.tx, e.log, c);
            && d.optionId == (if OptionArmed()(e).Some? then OptionArmed()(e) else c.optionId)
            && d.terms == Or(Terms()(e), c.terms)
            && (match Offered()(e)
                case None => d.orderHash == c.orderHash && d.listingCount == c.listingCount && d.listedContracts == c.listedContracts
                             && d.listedGrossUsdg == c.listedGrossUsdg && d.listedUnitPriceUsdg == c.listedUnitPriceUsdg
                case Some(o) => d.orderHash == Some(o.orderHash) && d.listingCount == o.seq_ && d.listedContracts == o.amount
                                && d.listedGrossUsdg == o.gross && d.listedUnitPriceUsdg == SafeDiv(o.gross, o.amount))
  {
    hide Swept, Sold, Written, HarvestEventOf, OriginIn, SafeDiv, Contracts, ToVault;
    if e.log.Harvest? {
      SweepMovesMoney(c, HarvestEventOf(t, e.tx, e.log.cycleNumber, e.log.gross, e.log.fee, e.log.net), OriginIn(t, e.tx), t.week.stranded);
    } else if e.log.OrderFulfilled? {
      FillMovesSales(c, Contracts(e.log.offer), ToVault(e.log.consideration));
    } else if e.log.CallsWritten? {
      WriteMovesClaim(c, e.log.claimKey, e.log.contracts, e.log.collateral);
    }
  }

  // The columns a sweep, a fill and a write move; all the others stay.
  lemma SweepMovesMoney(c: Cycle, h: HarvestEvent, origin: HarvestOrigin, stranded: bool)
    ensures var d := Swept(c, h, origin, stranded);
            d == c.(totals := d.totals, supplyAtHarvest := d.supplyAtHarvest, status := d.status, harvested := d.harvested)
  {
    hide AddHarvest;
  }

  lemma FillMovesSales(c: Cycle, contracts: nat, paid: nat)
    ensures var d := Sold(c, contracts, paid);
            d == c.(status := d.status, contractsSold := c.contractsSold + contracts, premiumGross := c.premiumGross + paid,
                    fillUnitPriceUsdg := SafeDiv(d.premiumGross, d.contractsSold), fillCount := c.fillCount + 1)
  {
  }

  lemma WriteMovesClaim(c: Cycle, claimKey: nat, contracts: nat, collateral: nat)
    ensures Written(c, claimKey, contracts, collateral)
         == c.(claimKey := Some(claimKey), contractsWritten := c.contractsWritten + contracts, collateral := c.collateral + collateral,
               writeCount := c.writeCount + 1)
  {
  }

  // ---------------------------------------------------------------- writing and selling

  lemma {:induction false} WeekSold(run: seq<Emission>, n: nat)
    requires LegalRun(run) && 1 <= n
    ensures var c, week := CycleOf(TapeOf(run), n), During(run, n);
            && c.claimKey == Latest(week, ClaimWritten())
            && c.contractsWritten == Added(week, ContractsWritten()) && c.collateral == Added(week, CollateralLocked())
            && c.writeCount == Added(week, Writes())
            && c.contractsSold == Added(week, CallsBought()) && c.fillCount == Added(week, VaultFills())
            && c.premiumGross == Added(week, PremiumUsdg())
            && (if c.contractsSold == 0 then c.fillUnitPriceUsdg == 0
                else c.fillUnitPriceUsdg * c.contractsSold <= c.premiumGross < (c.fillUnitPriceUsdg + 1) * c.contractsSold)
  {
    hide LegalRun, TapeOf, During, Latest, Added;
    WritesRetold(run, n);
    FillsRetold(run, n);
    var c := CycleOf(TapeOf(run), n);
    if c.contractsSold != 0 {
      DivBelow(c.premiumGross, c.contractsSold);
    }
  }

  lemma {:induction false} WritesRetold(run: seq<Emission>, n: nat)
    requires LegalRun(run) && 1 <= n
    ensures var c, week := CycleOf(TapeOf(run), n), During(run, n);
            && c.claimKey == Latest(week, ClaimWritten())
            && c.contractsWritten == Added(week, ContractsWritten()) && c.collateral == Added(week, CollateralLocked())
            && c.writeCount == Added(week, Writes())
  {
    if run == [] {
      assert TapeOf(run) == EMPTY_DB;
      return;
    }
    hide LegalRun, TapeOf, BooksOf, Reduce, Legal, During, Latest, Added, CycleOf, SafeDiv, NextMachine;
    hide PhaseLaw, SalesLaw, CycleLaw, ContractsWritten, CollateralLocked, Writes, CallsBought, PremiumUsdg, ClaimWritten, VaultFills, Armed;
    var k := |run| - 1;
    var t, g, e := TapeOf(run[..k]), BooksOf(run[..k]), run[k];
    StepHolds(run, t, g, e);
    WritesRetold(run[..k], n);
    OneMoreAnswer(run, n, ClaimWritten());
    OneMoreLog(run, n, ContractsWritten());
    OneMoreLog(run, n, CollateralLocked());
    OneMoreLog(run, n, Writes());
    SellingStep(t, g, e, n);
  }

  lemma {:induction false} FillsRetold(run: seq<Emission>, n: nat)
    requires LegalRun(run) && 1 <= n
    ensures var c, week := CycleOf(TapeOf(run), n), During(run, n);
            && c.contractsSold == Added(week, CallsBought()) && c.fillCount == Added(week, VaultFills())
            && c.premiumGross == Added(week, PremiumUsdg())
            && c.fillUnitPriceUsdg == SafeDiv(c.premiumGross, c.contractsSold)
  {
    if run == [] {
      assert TapeOf(run) == EMPTY_DB;
      return;
    }
    hide LegalRun, TapeOf, BooksOf, Reduce, Legal, During, Latest, Added, CycleOf, SafeDiv, NextMachine;
    hide PhaseLaw, SalesLaw, CycleLaw, ContractsWritten, CollateralLocked, Writes, CallsBought, PremiumUsdg, ClaimWritten, VaultFills, Armed;
    var k := |run| - 1;
    var t, g, e := TapeOf(run[..k]), BooksOf(run[..k]), run[k];
    StepHolds(run, t, g, e);
    FillsRetold(run[..k], n);
    OneMoreLog(run, n, CallsBought());
    OneMoreLog(run, n, VaultFills());
    OneMoreLog(run, n, PremiumUsdg());
    SellingStep(t, g, e, n);
  }

  lemma SellingStep(t: Db, g: Books, e: Emission, n: nat)
    requires PhaseLaw(t, g) && SalesLaw(t, g) && Legal(g, e) && 1 <= n
    ensures var c, d := CycleOf(t, n), CycleOf(Reduce(t, e.tx, e.log), n);
            if n != NextMachine(g.machine, e.log).cycle then d == c
            else
              && d.claimKey == (if ClaimWritten()(e).Some? then ClaimWritten()(e) else c.claimKey)
              && d.contractsWritten == c.contractsWritten + ContractsWritten()(e)
              && d.collateral == c.collateral + CollateralLocked()(e) && d.writeCount == c.writeCount + Writes()(e)
              && d.contractsSold == c.contractsSold + CallsBought()(e) && d.fillCount == c.fillCount + VaultFills()(e)
              && d.premiumGross == c.premiumGross + PremiumUsdg()(e)
              && (c.fillUnitPriceUsdg == SafeDiv(c.premiumGross, c.contractsSold)
                  ==> d.fillUnitPriceUsdg == SafeDiv(d.premiumGross, d.contractsSold))
  {
    hide CycleRowAfter, LegalHarvest, LegalRollClose, LegalFill, LegalTransfer, LegalEntrySettled, ListingSums, CycleSells, ListingMirrors;
    TouchesCurrent(t, g, e);
    RowIs(t, e.tx, e.log, n);
    if e.log.OrderFulfilled? && e.log.offerer == Vault {
      FillTouches(t, g, e);
    }
    if CycleTouched(t, e.log) == Some(n) {
      SellingOfRow(t, e, CycleOf(t, n));
    }
  }

  lemma SellingOfRow(t: Db, e: Emission, c: Cycle)
    requires e.log.OrderFulfilled? ==> e.log.offerer == Vault
    ensures var d := CycleRowAfter(t, e.tx, e.log, c);
            && d.claimKey == (if ClaimWritten()(e).Some? then ClaimWritten()(e) else c.claimKey)
            && d.contractsWritten == c.contractsWritten + ContractsWritten()(e)
            && d.collateral == c.collateral + CollateralLocked()(e) && d.writeCount == c.writeCount + Writes()(e)
            && d.contractsSold == c.contractsSold + CallsBought()(e) && d.fillCount == c.fillCount + VaultFills()(e)
            && d.premiumGross == c.premiumGross + PremiumUsdg()(e)
            && (c.fillUnitPriceUsdg == SafeDiv(c.premiumGross, c.contractsSold)
                ==> d.fillUnitPriceUsdg == SafeDiv(d.premiumGross, d.contractsSold))
  {
    hide Swept, Sold, Written, HarvestEventOf, OriginIn, SafeDiv, Contracts, ToVault, Added;
    if e.log.Harvest? {
      SweepMovesMoney(c, HarvestEventOf(t, e.tx, e.log.cycleNumber, e.log.gross, e.log.fee, e.log.net), OriginIn(t, e.tx), t.week.stranded);
    } else if e.log.OrderFulfilled? {
      FillMovesSales(c, Contracts(e.log.offer), ToVault(e.log.consideration));
      ContractsAreItems(e.log.offer);
      PaymentIsItems(e.log.consideration);
    } else if e.log.CallsWritten? {
      WriteMovesClaim(c, e.log.claimKey, e.log.contracts, e.log.collateral);
    }
  }

  // ---------------------------------------------------------------- closing

  // While Clear's redeem waits for the vault's own report, it is the last thing the week was told.
  lemma {:induction false} RedeemIsLatest(run: seq<Emission>)
    requires LegalRun(run) && BooksOf(run).machine.pending.Redeeming?
    ensures var m := BooksOf(run).machine;
            Latest(During(run, m.cycle), Returned()) == Some((m.pending.assets, m.pending.usdg))
  {
    hide LegalRun, TapeOf, BooksOf, Reduce, Legal, During, Latest;
    NoRunNoRedeem(run);
    var k := |run| - 1;
    var t, g, e := TapeOf(run[..k]), BooksOf(run[..k]), run[k];
    StepHolds(run, t, g, e);
    LastBooks(run);
    OneMoreAnswer(run, BooksOf(run).machine.cycle, Returned());
    RedeemStays(g, e);
    if !e.log.ClearClaimRedeemed? {
      RedeemIsLatest(run[..k]);
    }
  }

  lemma NoRunNoRedeem(run: seq<Emission>)
    requires BooksOf(run).machine.pending.Redeeming?
    ensures run != []
  {
  }

  lemma LastBooks(run: seq<Emission>)
    requires run != [] && LegalRun(run)
    ensures var k := |run| - 1; BooksOf(run) == Next(BooksOf(run[..k]), run[k]) && LegalRun(run[..k])
  {
  }

  lemma RedeemStays(g: Books, e: Emission)
    requires Legal(g, e) && NextMachine(g.machine, e.log).pending.Redeeming?
    ensures var m, p := g.machine, NextMachine(g.machine, e.log).pending;
            if e.log.ClearClaimRedeemed? then (p.assets, p.usdg) == (e.log.assets, e.log.usdg)
            else !Returned()(e).Some? && m.pending == p && NextMachine(m, e.log).cycle == m.cycle
  {
    hide LegalHarvest, LegalFill, LegalTransfer, LegalEntrySettled, LiveCut;
  }

  lemma {:induction false} WeekClosed(run: seq<Emission>, n: nat)
    requires LegalRun(run) && 1 <= n
    ensures var c, week := CycleOf(TapeOf(run), n), During(run, n);
            && c.contractsAssigned == Or(Latest(week, AssignedCount()), 0)
            && (c.assetsReturned, c.assignmentUsdg) == Or(Latest(week, Returned()), (0, 0))
            && c.strandGen == Latest(week, StrandedAs()) && c.stranded == Latest(week, StrandedAs()).Some?
  {
    if run == [] {
      assert TapeOf(run) == EMPTY_DB;
      return;
    }
    hide LegalRun, TapeOf, BooksOf, Reduce, Legal, During, Latest, Added, NextMachine, CycleOf, PhaseLaw, SalesLaw, CycleLaw;
    hide AssignedCount, Returned, StrandedAs;
    var k := |run| - 1;
    var t, g, e := TapeOf(run[..k]), BooksOf(run[..k]), run[k];
    StepHolds(run, t, g, e);
    WeekClosed(run[..k], n);
    OneMoreAnswer(run, n, AssignedCount());
    OneMoreAnswer(run, n, Returned());
    OneMoreAnswer(run, n, StrandedAs());
    if g.machine.pending.Redeeming? {
      RedeemIsLatest(run[..k]);
    }
    ClosingStep(t, g, e, n);
  }

  lemma ClosingStep(t: Db, g: Books, e: Emission, n: nat)
    requires PhaseLaw(t, g) && SalesLaw(t, g) && Legal(g, e) && 1 <= n
    requires var c, p := CycleOf(t, n), g.machine.pending;
             n == g.machine.cycle && p.Redeeming? ==> (c.assetsReturned, c.assignmentUsdg) == (p.assets, p.usdg)
    ensures var c, d := CycleOf(t, n), CycleOf(Reduce(t, e.tx, e.log), n);
            if n != NextMachine(g.machine, e.log).cycle then d == c
            else
              && d.contractsAssigned == Or(AssignedCount()(e), c.contractsAssigned)
              && (d.assetsReturned, d.assignmentUsdg) == Or(Returned()(e), (c.assetsReturned, c.assignmentUsdg))
              && d.strandGen == (if StrandedAs()(e).Some? then StrandedAs()(e) else c.strandGen)
              && d.stranded == (StrandedAs()(e).Some? || c.stranded)
  {
    hide CycleRowAfter, LegalHarvest, LegalRollClose, LegalFill, LegalTransfer, LegalEntrySettled, ListingSums, CycleSells, ListingMirrors;
    hide ListingsMirror, LastStrandMirrors, TxsOk, Contracts, ToVault;
    TouchesCurrent(t, g, e);
    RowIs(t, e.tx, e.log, n);
    ClosingOfRow(t, e, CycleOf(t, n));
  }

  lemma ClosingOfRow(t: Db, e: Emission, c: Cycle)
    ensures var d := CycleRowAfter(t, e.tx, e.log, c);
            && d.contractsAssigned == Or(AssignedCount()(e), c.contractsAssigned)
            && (d.assetsReturned, d.assignmentUsdg)
               == (if e.log.ClaimRedeemed? then (e.log.assets, e.log.usdg) else Or(Returned()(e), (c.assetsReturned, c.assignmentUsdg)))
            && d.strandGen == (if StrandedAs()(e).Some? then StrandedAs()(e) else c.strandGen)
            && d.stranded == (StrandedAs()(e).Some? || c.stranded)
  {
    hide Swept, Sold, Written, HarvestEventOf, OriginIn, SafeDiv, Contracts, ToVault;
    if e.log.Harvest? {
      SweepMovesMoney(c, HarvestEventOf(t, e.tx, e.log.cycleNumber, e.log.gross, e.log.fee, e.log.net), OriginIn(t, e.tx), t.week.stranded);
    } else if e.log.OrderFulfilled? {
      FillMovesSales(c, Contracts(e.log.offer), ToVault(e.log.consideration));
    } else if e.log.CallsWritten? {
      WriteMovesClaim(c, e.log.claimKey, e.log.contracts, e.log.collateral);
    }
  }

  // ---------------------------------------------------------------- exercise

  // The first bucket the week's own open claim was written into.
  function FirstBucket(run: seq<Emission>, n: nat): Option<nat> {
    if run == [] then None
    else
      var earlier, m, log := run[..|run| - 1], BooksOf(run[..|run| - 1]).machine, run[|run| - 1].log;
      if FirstBucket(earlier, n).Some? then FirstBucket(earlier, n)
      else if log.BucketWrittenInto? && m.cycle == n && m.claim == Some(log.claimId) then Some(log.bucketIndex)
      else None
  }

  // What was exercised from that bucket, of the week's own armed option.
  function ExercisedIn(run: seq<Emission>, n: nat): nat {
    if run == [] then 0
    else
      var earlier, m, log := run[..|run| - 1], BooksOf(run[..|run| - 1]).machine, run[|run| - 1].log;
      ExercisedIn(earlier, n)
      + if log.BucketAssignedExercise? && m.cycle == n && m.option == Some(log.optionId)
           && FirstBucket(earlier, n) == Some(log.bucketIndex) then log.amount else 0
  }

  lemma {:induction false} WeekExercised(run: seq<Emission>, n: nat)
    requires LegalRun(run) && 1 <= n
    ensures var c := CycleOf(TapeOf(run), n); c.bucketIndex == FirstBucket(run, n) && c.bucketAssigned == ExercisedIn(run, n)
  {
    if run == [] {
      assert TapeOf(run) == EMPTY_DB;
      return;
    }
    hide LegalRun, TapeOf, BooksOf, Reduce, Legal, NextMachine, CycleOf, PhaseLaw, SalesLaw, CycleLaw, Added;
    var k := |run| - 1;
    var t, g, e := TapeOf(run[..k]), BooksOf(run[..k]), run[k];
    StepHolds(run, t, g, e);
    WeekExercised(run[..k], n);
    ExerciseStep(t, g, e, n);
  }

  lemma ExerciseStep(t: Db, g: Books, e: Emission, n: nat)
    requires PhaseLaw(t, g) && SalesLaw(t, g) && Legal(g, e) && 1 <= n
    ensures var c, d, m := CycleOf(t, n), CycleOf(Reduce(t, e.tx, e.log), n), g.machine;
            && d.bucketIndex == (if c.bucketIndex.Some? then c.bucketIndex
                                 else if e.log.BucketWrittenInto? && m.cycle == n && m.claim == Some(e.log.claimId) then Some(e.log.bucketIndex)
                                 else None)
            && d.bucketAssigned == c.bucketAssigned
               + (if e.log.BucketAssignedExercise? && m.cycle == n && m.option == Some(e.log.optionId)
                     && c.bucketIndex == Some(e.log.bucketIndex) then e.log.amount else 0)
  {
    hide CycleRowAfter, LegalLog, ListingSums, CycleSells, ListingMirrors, MachineOk;
    TouchesCurrent(t, g, e);
    RowIs(t, e.tx, e.log, n);
    ExerciseOfRow(t, e, CycleOf(t, n));
  }

  lemma ExerciseOfRow(t: Db, e: Emission, c: Cycle)
    ensures var d := CycleRowAfter(t, e.tx, e.log, c);
            && d.bucketIndex == (if c.bucketIndex.Some? then c.bucketIndex
                                 else if e.log.BucketWrittenInto? then Some(e.log.bucketIndex) else None)
            && d.bucketAssigned == c.bucketAssigned
               + (if e.log.BucketAssignedExercise? && c.bucketIndex == Some(e.log.bucketIndex) then e.log.amount else 0)
  {
    hide Swept, Sold, Written, HarvestEventOf, OriginIn, SafeDiv, Contracts, ToVault;
    if e.log.Harvest? {
      SweepMovesMoney(c, HarvestEventOf(t, e.tx, e.log.cycleNumber, e.log.gross, e.log.fee, e.log.net), OriginIn(t, e.tx), t.week.stranded);
    } else if e.log.OrderFulfilled? {
      FillMovesSales(c, Contracts(e.log.offer), ToVault(e.log.consideration));
    } else if e.log.CallsWritten? {
      WriteMovesClaim(c, e.log.claimKey, e.log.contracts, e.log.collateral);
    }
  }

  // ---------------------------------------------------------------- the verdict

  // A week that is over, its claim not stranded, is published assigned exactly when its close reported an
  // assignment, unfilled exactly when nothing was ever written in it, and closed otherwise.
  lemma {:induction false} VerdictOfWeek(run: seq<Emission>, n: nat)
    requires LegalRun(run) && n in TapeOf(run).cycles && TapeOf(run).cycles[n].harvested
    requires TapeOf(run).week.strandedCycleNumber != Some(n)
    ensures var status, week := TapeOf(run).cycles[n].status, During(run, n);
            && (status == CycleStatus.Assigned <==> Or(Latest(week, AssignedCount()), 0) > 0)
            && (status == CycleStatus.Unfilled <==> Added(week, ContractsWritten()) == 0)
            && status in {CycleStatus.Assigned, CycleStatus.Unfilled, CycleStatus.Closed}
  {
    hide LegalRun, TapeOf, BooksOf, During, Latest, Added;
    WeeksCounted(run);
    WeekVerdict(run, n);
    WeekClosed(run, n);
    WeekSold(run, n);
  }
}
