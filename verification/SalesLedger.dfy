// Written equals sold, seen from two independent handlers: after every log of every legal run the
// vault's own write count, Seaport's fill count and the listings' rows agree cycle by cycle, and
// the premium on the cycles and on the vault row is what those listings paid.
module SalesLedger {
  import opened Common
  import opened Sums
  import opened Lifecycle
  import opened Rows
  import opened Logs
  import opened Reducers
  import opened Chain
  import opened PhaseMirror

  // ---------------------------------------------------------------- any tape at all

  // A listing that reads "filled" sold everything it offered.
  ghost predicate FilledIsFull(listings: map<Hash, Listing>) {
    forall h: Hash :: h in listings && listings[h].status == ListingStatus.Filled
                      ==> listings[h].contractsFilled >= listings[h].amount
  }

  // Once filled, always filled, whatever log comes next, legal or not.
  lemma FilledForEver(t: Db, tx: Hash, log: Log, h: Hash)
    requires FilledIsFull(t.listings) && h in t.listings && t.listings[h].status == ListingStatus.Filled
    ensures FilledIsFull(ListingsAfter(t, tx, log))
    ensures h in ListingsAfter(t, tx, log) && ListingsAfter(t, tx, log)[h].status == ListingStatus.Filled
  {
    FilledIsFullKept(t, tx, log);
  }

  lemma FilledIsFullKept(t: Db, tx: Hash, log: Log)
    requires FilledIsFull(t.listings)
    ensures FilledIsFull(ListingsAfter(t, tx, log))
  {
  }

  // ---------------------------------------------------------------- listings against orders

  predicate ListingMirrors(l: Listing, o: Order) {
    && l.cycleNumber == o.cycle && l.amount == o.amount && l.unitPriceUsdg == o.unitPrice
    && l.contractsFilled == o.filled <= o.amount && 0 < o.amount
    && l.grossUsdg == o.unitPrice * o.amount
    && l.proceedsUsdg == o.unitPrice * o.filled
    && (l.status == ListingStatus.Filled <==> o.filled == o.amount)
  }

  ghost predicate ListingsMirror(listings: map<Hash, Listing>, orders: map<Hash, Order>, m: Machine) {
    && listings.Keys == orders.Keys
    && (forall h: Hash :: h in orders ==> ListingMirrors(listings[h], orders[h]) && 1 <= orders[h].cycle <= m.cycle)
    && (m.listing.Some? ==> m.listing.value in orders && orders[m.listing.value].cycle == m.cycle)
  }

  // ---------------------------------------------------------------- cycles against listings

  function FilledFor(n: nat): Listing -> int { (l: Listing) => if l.cycleNumber == n then l.contractsFilled else 0 }

  function ProceedsFor(n: nat): Listing -> int { (l: Listing) => if l.cycleNumber == n then l.proceedsUsdg else 0 }

  function PremiumOf(): Cycle -> int { (c: Cycle) => c.premiumGross }

  ghost predicate ListingSums(t: Db) {
    && (forall n: nat :: Sum(t.listings, FilledFor(n)) == CycleOf(t, n).contractsSold)
    && (forall n: nat :: Sum(t.listings, ProceedsFor(n)) == CycleOf(t, n).premiumGross)
    && t.money.lifetimePremiumGross == Sum(t.cycles, PremiumOf())
  }

  predicate CycleSells(c: Cycle, n: nat, m: Machine) {
    && c.contractsWritten == c.contractsSold + (if n == m.cycle then Unsold(m) else 0)
    && c.collateral == c.contractsWritten * LOT
    && c.contractsAssigned <= c.contractsWritten
  }

  // The machine's open claim is the current cycle's whole write.
  predicate ClaimMirrors(c: Cycle, m: Machine) {
    && (m.claim.Some? ==> m.written == c.contractsWritten && m.collateral == c.collateral)
    && (m.Live() && m.claim == None && !m.pending.Redeemed? ==> c.contractsWritten == 0)
    && (m.pending.Redeemed? ==> m.pending.written == c.contractsWritten)
  }

  ghost predicate CycleKeys(cycles: map<nat, Cycle>, m: Machine) {
    forall n: nat :: n in cycles <==> 1 <= n <= m.cycle
  }

  ghost predicate SalesLaw(t: Db, g: Books) {
    && ListingsMirror(t.listings, g.orders, g.machine)
    && CycleKeys(t.cycles, g.machine)
    && (forall n: nat :: CycleSells(CycleOf(t, n), n, g.machine))
    && ClaimMirrors(CycleOf(t, g.machine.cycle), g.machine)
    && ListingSums(t)
  }

  // ---------------------------------------------------------------- the listings table kept

  // A row that ends without filling keeps what it sold; its order is not touched.
  lemma EndedMirrors(log: Log, l: Listing, o: Order)
    requires ListingMirrors(l, o) && !log.OrderFulfilled? && l.status != ListingStatus.Filled
    ensures ListingMirrors(ListingRowAfter(log, l), o)
  {
  }

  lemma ApprovalMirrors(t: Db, g: Books, e: Emission)
    requires PhaseLaw(t, g) && ListingsMirror(t.listings, g.orders, g.machine) && Legal(g, e) && e.log.ListingApproved?
    ensures ListingsMirror(ListingsAfter(t, e.tx, e.log), NextOrders(g, e.log), NextMachine(g.machine, e.log))
  {
    ExactUnit(e.log.gross, e.log.amount);
  }

  lemma FillKeepsListings(t: Db, g: Books, e: Emission)
    requires ListingsMirror(t.listings, g.orders, g.machine) && Legal(g, e) && e.log.OrderFulfilled? && e.log.offerer == Vault
    ensures ListingsMirror(ListingsAfter(t, e.tx, e.log), NextOrders(g, e.log), NextMachine(g.machine, e.log))
  {
    FillMirrors(t.listings[e.log.orderHash], g.orders[e.log.orderHash], Contracts(e.log.offer), ToVault(e.log.consideration));
  }

  // Only an approval puts an order on the book, and only the roll moves the cycle number.
  lemma PointerKept(g: Books, e: Emission)
    requires MachineOk(g.machine) && Legal(g, e) && !e.log.ListingApproved?
    ensures var n := NextMachine(g.machine, e.log);
            n.cycle >= g.machine.cycle && (n.listing.Some? ==> n.listing == g.machine.listing && n.cycle == g.machine.cycle)
  {
  }

  lemma ListingsMirrorKept(t: Db, g: Books, e: Emission)
    requires PhaseLaw(t, g) && ListingsMirror(t.listings, g.orders, g.machine) && Legal(g, e)
    ensures ListingsMirror(ListingsAfter(t, e.tx, e.log), NextOrders(g, e.log), NextMachine(g.machine, e.log))
  {
    if e.log.ListingApproved? {
      ApprovalMirrors(t, g, e);
    } else if e.log.OrderFulfilled? && e.log.offerer == Vault {
      FillKeepsListings(t, g, e);
    } else {
      PointerKept(g, e);
      var touched := ListingTouched(t, e.tx, e.log);
      if touched.Some? {
        EndedMirrors(e.log, t.listings[touched.value], g.orders[touched.value]);
      }
    }
  }

  lemma ExactUnit(gross: nat, amount: nat)
    requires 0 < amount && gross % amount == 0
    ensures gross == gross / amount * amount
  {
  }

  // A fill at the listing's own price keeps its row on its order.
  lemma FillMirrors(l: Listing, o: Order, contracts: nat, paid: nat)
    requires ListingMirrors(l, o) && o.filled + contracts <= o.amount && paid == o.unitPrice * contracts
    ensures ListingMirrors(Bought(l, contracts, paid), o.(filled := o.filled + contracts))
  {
    assert o.unitPrice * (o.filled + contracts) == o.unitPrice * o.filled + o.unitPrice * contracts;
  }

  // ---------------------------------------------------------------- the cycles table kept

  // Cycle keys: a legal log touches the current row, or opens the next one.
  lemma TouchesCurrent(t: Db, g: Books, e: Emission)
    requires PhaseLaw(t, g) && ListingsMirror(t.listings, g.orders, g.machine) && Legal(g, e)
    ensures CycleTouched(t, e.log).Some? ==> CycleTouched(t, e.log).value == NextMachine(g.machine, e.log).cycle >= 1
    ensures CycleTouched(t, e.log) == None ==> NextMachine(g.machine, e.log).cycle == g.machine.cycle
    ensures NextMachine(g.machine, e.log).cycle == (if e.log.RollOpen? then g.machine.cycle + 1 else g.machine.cycle)
  {
  }

  // What a log does to the sales columns of the row it touches.
  lemma SalesColumns(t: Db, tx: Hash, log: Log, c: Cycle)
    requires !log.CallsWritten? && !log.OrderFulfilled? && !log.RollClose?
    ensures var d := CycleRowAfter(t, tx, log, c);
            && d.contractsWritten == c.contractsWritten && d.contractsSold == c.contractsSold
            && d.collateral == c.collateral && d.contractsAssigned == c.contractsAssigned
            && d.premiumGross == c.premiumGross
  {
  }

  // Fills aside, the machine's moves keep every row on its sales.
  lemma MachineKeepsSales(g: Books, e: Emission, c: Cycle)
    requires MachineOk(g.machine) && Legal(g, e)
    requires !e.log.CallsWritten? && !e.log.RollOpen? && !(e.log.OrderFulfilled? && e.log.offerer == Vault)
    requires CycleSells(c, g.machine.cycle, g.machine) && ClaimMirrors(c, g.machine)
    ensures CycleSells(c, g.machine.cycle, NextMachine(g.machine, e.log)) && ClaimMirrors(c, NextMachine(g.machine, e.log))
    ensures Unsold(NextMachine(g.machine, e.log)) == Unsold(g.machine)
  {
  }

  lemma WriteSells(g: Books, e: Emission, c: Cycle)
    requires MachineOk(g.machine) && Legal(g, e) && e.log.CallsWritten?
    requires CycleSells(c, g.machine.cycle, g.machine) && ClaimMirrors(c, g.machine)
    ensures var d := Written(c, e.log.claimKey, e.log.contracts, e.log.collateral);
            var m := NextMachine(g.machine, e.log);
            CycleSells(d, m.cycle, m) && ClaimMirrors(d, m)
  {
  }

  lemma FillSells(g: Books, e: Emission, c: Cycle)
    requires MachineOk(g.machine) && Legal(g, e) && e.log.OrderFulfilled? && e.log.offerer == Vault
    requires CycleSells(c, g.machine.cycle, g.machine) && ClaimMirrors(c, g.machine)
    ensures var d := Sold(c, Contracts(e.log.offer), ToVault(e.log.consideration));
            var m := NextMachine(g.machine, e.log);
            CycleSells(d, m.cycle, m) && ClaimMirrors(d, m)
  {
  }

  lemma CloseSells(g: Books, e: Emission, c: Cycle)
    requires MachineOk(g.machine) && Legal(g, e) && e.log.RollClose?
    requires CycleSells(c, g.machine.cycle, g.machine) && ClaimMirrors(c, g.machine)
    ensures var d := c.(assetsReturned := e.log.assets, assignmentUsdg := e.log.usdg, contractsAssigned := e.log.assignedCount);
            var m := NextMachine(g.machine, e.log);
            CycleSells(d, m.cycle, m) && ClaimMirrors(d, m)
  {
  }

  // The current row after a log that does not open the next cycle.
  lemma CurrentRowSells(t: Db, g: Books, e: Emission, c: Cycle)
    requires MachineOk(g.machine) && Legal(g, e) && !e.log.RollOpen? && (e.log.OrderFulfilled? ==> e.log.offerer == Vault)
    requires CycleSells(c, g.machine.cycle, g.machine) && ClaimMirrors(c, g.machine)
    ensures var m := NextMachine(g.machine, e.log);
            var d := CycleRowAfter(t, e.tx, e.log, c);
            CycleSells(d, g.machine.cycle, m) && ClaimMirrors(d, m)
  {
    if e.log.CallsWritten? {
      WriteSells(g, e, c);
    } else if e.log.OrderFulfilled? {
      FillSells(g, e, c);
    } else {
      MachineKeepsSales(g, e, c);
      if e.log.RollClose? {
        CloseSells(g, e, c);
      } else {
        SalesColumns(t, e.tx, e.log, c);
      }
    }
  }

  // The machine moves without touching the row only where the row need not move.
  lemma UntouchedRowSells(t: Db, g: Books, e: Emission, c: Cycle)
    requires PhaseLaw(t, g) && ListingsMirror(t.listings, g.orders, g.machine) && Legal(g, e)
    requires CycleTouched(t, e.log) == None && CycleSells(c, g.machine.cycle, g.machine) && ClaimMirrors(c, g.machine)
    ensures CycleSells(c, g.machine.cycle, NextMachine(g.machine, e.log)) && ClaimMirrors(c, NextMachine(g.machine, e.log))
  {
    MachineKeepsSales(g, e, c);
  }

  // The row of the cycle the machine is in after the log.
  lemma LatestRowSells(t: Db, g: Books, e: Emission)
    requires PhaseLaw(t, g) && SalesLaw(t, g) && Legal(g, e)
    ensures var m := NextMachine(g.machine, e.log);
            var d := Get(CyclesAfter(t, e.tx, e.log), m.cycle, BARE_CYCLE);
            CycleSells(d, m.cycle, m) && ClaimMirrors(d, m)
  {
    TouchesCurrent(t, g, e);
    var m := NextMachine(g.machine, e.log);
    var c := CycleOf(t, m.cycle);
    assert CycleSells(c, m.cycle, g.machine);
    if CycleTouched(t, e.log) == None {
      UntouchedRowSells(t, g, e, c);
    } else if !e.log.RollOpen? {
      CurrentRowSells(t, g, e, c);
    }
  }

  lemma PastRowSells(g: Books, e: Emission, c: Cycle, n: nat)
    requires MachineOk(g.machine) && Legal(g, e) && CycleSells(c, n, g.machine) && n != NextMachine(g.machine, e.log).cycle
    ensures CycleSells(c, n, NextMachine(g.machine, e.log))
  {
  }

  lemma CyclesSell(t: Db, g: Books, e: Emission)
    requires PhaseLaw(t, g) && SalesLaw(t, g) && Legal(g, e)
    ensures CycleKeys(CyclesAfter(t, e.tx, e.log), NextMachine(g.machine, e.log))
    ensures forall n: nat :: CycleSells(Get(CyclesAfter(t, e.tx, e.log), n, BARE_CYCLE), n, NextMachine(g.machine, e.log))
  {
    hide LegalLog, CycleRowAfter, ListingSums;
    var m, after := NextMachine(g.machine, e.log), CyclesAfter(t, e.tx, e.log);
    TouchesCurrent(t, g, e);
    LatestRowSells(t, g, e);
    forall n: nat ensures CycleSells(Get(after, n, BARE_CYCLE), n, m) {
      if n != m.cycle {
        assert CycleSells(CycleOf(t, n), n, g.machine);
        PastRowSells(g, e, CycleOf(t, n), n);
      }
    }
  }

  // ---------------------------------------------------------------- the sums kept

  lemma FillMovesSums(t: Db, g: Books, e: Emission, n: nat)
    requires PhaseLaw(t, g) && SalesLaw(t, g) && Legal(g, e) && e.log.OrderFulfilled? && e.log.offerer == Vault
    ensures Sum(ListingsAfter(t, e.tx, e.log), FilledFor(n)) == Get(CyclesAfter(t, e.tx, e.log), n, BARE_CYCLE).contractsSold
    ensures Sum(ListingsAfter(t, e.tx, e.log), ProceedsFor(n)) == Get(CyclesAfter(t, e.tx, e.log), n, BARE_CYCLE).premiumGross
  {
    var h := e.log.orderHash;
    var l := t.listings[h];
    SumPut(t.listings, h, ListingRowAfter(e.log, l), l, FilledFor(n));
    SumPut(t.listings, h, ListingRowAfter(e.log, l), l, ProceedsFor(n));
  }

  lemma OtherKeepsListingSums(t: Db, e: Emission, n: nat)
    requires !e.log.OrderFulfilled?
    ensures Sum(ListingsAfter(t, e.tx, e.log), FilledFor(n)) == Sum(t.listings, FilledFor(n))
    ensures Sum(ListingsAfter(t, e.tx, e.log), ProceedsFor(n)) == Sum(t.listings, ProceedsFor(n))
  {
    var after := ListingsAfter(t, e.tx, e.log);
    var h := if e.log.ListingApproved? then Some(e.log.orderHash) else ListingTouched(t, e.tx, e.log);
    if after != t.listings {
      var bare := Listing(0, 0, 0, 0, 0, ListingStatus.Approved, 0, 0, 0, None);
      SumPut(t.listings, h.value, after[h.value], bare, FilledFor(n));
      SumPut(t.listings, h.value, after[h.value], bare, ProceedsFor(n));
    }
  }

  lemma OtherKeepsSold(t: Db, e: Emission, n: nat)
    requires !(e.log.OrderFulfilled? && e.log.offerer == Vault)
    ensures Get(CyclesAfter(t, e.tx, e.log), n, BARE_CYCLE).contractsSold == CycleOf(t, n).contractsSold
    ensures Get(CyclesAfter(t, e.tx, e.log), n, BARE_CYCLE).premiumGross == CycleOf(t, n).premiumGross
  {
  }

  // A fill lands on its listing's week, with what it paid.
  lemma FillTouches(t: Db, g: Books, e: Emission)
    requires PhaseLaw(t, g) && ListingsMirror(t.listings, g.orders, g.machine) && Legal(g, e)
    requires e.log.OrderFulfilled? && e.log.offerer == Vault
    ensures CycleTouched(t, e.log).Some?
    ensures var c := CycleOf(t, CycleTouched(t, e.log).value);
            CycleRowAfter(t, e.tx, e.log, c).premiumGross == c.premiumGross + ToVault(e.log.consideration)
  {
  }

  lemma LifetimePremium(t: Db, g: Books, e: Emission)
    requires PhaseLaw(t, g) && SalesLaw(t, g) && Legal(g, e)
    ensures MoneyAfter(t, e.tx, e.log).lifetimePremiumGross == Sum(CyclesAfter(t, e.tx, e.log), PremiumOf())
  {
    hide LegalLog, CycleRowAfter, CycleSells, ListingMirrors, NextMachine;
    var touched := CycleTouched(t, e.log);
    if touched.Some? {
      SumPut(t.cycles, touched.value, CyclesAfter(t, e.tx, e.log)[touched.value], BARE_CYCLE, PremiumOf());
    }
    if e.log.OrderFulfilled? && e.log.offerer == Vault {
      TouchesCurrent(t, g, e);
      FillTouches(t, g, e);
    } else if touched.Some? {
      OtherKeepsSold(t, e, touched.value);
    }
  }

  lemma SumsOfCycle(t: Db, g: Books, e: Emission, n: nat)
    requires PhaseLaw(t, g) && SalesLaw(t, g) && Legal(g, e)
    ensures Sum(ListingsAfter(t, e.tx, e.log), FilledFor(n)) == Get(CyclesAfter(t, e.tx, e.log), n, BARE_CYCLE).contractsSold
    ensures Sum(ListingsAfter(t, e.tx, e.log), ProceedsFor(n)) == Get(CyclesAfter(t, e.tx, e.log), n, BARE_CYCLE).premiumGross
  {
    assert Sum(t.listings, FilledFor(n)) == CycleOf(t, n).contractsSold;
    assert Sum(t.listings, ProceedsFor(n)) == CycleOf(t, n).premiumGross;
    if e.log.OrderFulfilled? && e.log.offerer == Vault {
      FillMovesSums(t, g, e, n);
    } else {
      OtherKeepsSold(t, e, n);
      if !e.log.OrderFulfilled? {
        OtherKeepsListingSums(t, e, n);
      }
    }
  }

  lemma ListingSumsKept(t: Db, g: Books, e: Emission)
    requires PhaseLaw(t, g) && SalesLaw(t, g) && Legal(g, e)
    ensures ListingSums(Reduce(t, e.tx, e.log))
  {
    var u := Reduce(t, e.tx, e.log);
    LifetimePremium(t, g, e);
    forall n: nat ensures Sum(u.listings, FilledFor(n)) == CycleOf(u, n).contractsSold {
      SumsOfCycle(t, g, e, n);
    }
    forall n: nat ensures Sum(u.listings, ProceedsFor(n)) == CycleOf(u, n).premiumGross {
      SumsOfCycle(t, g, e, n);
    }
  }

  lemma SalesKept(t: Db, g: Books, e: Emission)
    requires PhaseLaw(t, g) && SalesLaw(t, g) && Legal(g, e)
    ensures SalesLaw(Reduce(t, e.tx, e.log), Next(g, e))
  {
    ListingsMirrorKept(t, g, e);
    LatestRowSells(t, g, e);
    CyclesSell(t, g, e);
    ListingSumsKept(t, g, e);
    CycleRowsOf(t, e);
  }

  lemma RowIs(t: Db, tx: Hash, log: Log, n: nat)
    ensures Get(CyclesAfter(t, tx, log), n, BARE_CYCLE)
         == if CycleTouched(t, log) == Some(n) then CycleRowAfter(t, tx, log, CycleOf(t, n)) else CycleOf(t, n)
  {
  }

  lemma CycleRowsOf(t: Db, e: Emission)
    ensures forall n: nat :: CycleOf(Reduce(t, e.tx, e.log), n) == Get(CyclesAfter(t, e.tx, e.log), n, BARE_CYCLE)
  {
  }
}
