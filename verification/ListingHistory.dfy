// Every listing read straight off the logs: what it offered and sold, over every legal run, and how it
// ended, on any tape.
module ListingHistory {
  import opened Common
  import opened History
  import opened Lifecycle
  import opened Rows
  import opened Logs
  import opened Reducers
  import opened Chain
  import opened PhaseMirror
  import opened SalesLedger
  import opened WeekHistory
  import opened Runs
  import opened Theorems

  // ---------------------------------------------------------------- what it offered and sold

  function OfferOf(h: Hash): Emission -> Option<Offer> {
    (e: Emission) =>
      if e.log.ListingApproved? && e.log.orderHash == h then Some(Offer(h, e.log.amount, e.log.gross, e.log.seq_)) else None
  }

  function SoldOn(h: Hash): Emission -> int {
    (e: Emission) =>
      if e.log.OrderFulfilled? && e.log.offerer == Vault && e.log.orderHash == h then Added(e.log.offer, CallsSold()) else 0
  }

  function PaidOn(h: Hash): Emission -> int {
    (e: Emission) =>
      if e.log.OrderFulfilled? && e.log.offerer == Vault && e.log.orderHash == h then Added(e.log.consideration, UsdgToVault()) else 0
  }

  function FillsOn(h: Hash): Emission -> int {
    (e: Emission) => if e.log.OrderFulfilled? && e.log.offerer == Vault && e.log.orderHash == h then 1 else 0
  }

  // Ended by a cancellation, the vault's or Seaport's, since it was approved.
  function EndOf(h: Hash): Emission -> Option<bool> {
    (e: Emission) =>
      if e.log.ListingApproved? && e.log.orderHash == h then Some(false)
      else if (e.log.ListingCancelled? || e.log.OrderCancelled?) && e.log.orderHash == h then Some(true)
      else None
  }

  function StatusTold(l: Listing, ended: bool): ListingStatus {
    if l.contractsFilled >= l.amount then ListingStatus.Filled
    else if l.contractsFilled > 0 then ListingStatus.PartiallyFilled
    else if ended then ListingStatus.Cancelled
    else ListingStatus.Approved
  }

  predicate ListingTold(l: Listing, run: seq<Emission>, h: Hash) {
    && Latest(run, OfferOf(h)) == Some(Offer(h, l.amount, l.grossUsdg, l.seq_))
    && l.contractsFilled == Added(run, SoldOn(h)) && l.proceedsUsdg == Added(run, PaidOn(h)) && l.fillCount == Added(run, FillsOn(h))
    && l.status == StatusTold(l, Latest(run, EndOf(h)) == Some(true))
  }

  predicate NeverOffered(run: seq<Emission>, h: Hash) {
    Added(run, SoldOn(h)) == Added(run, PaidOn(h)) == Added(run, FillsOn(h)) == 0
  }

  // A listing says what its approval offered and its fills sold; it reads filled once it is sold out, partially
  // filled once anything is sold, cancelled if it ended with nothing sold, and approved otherwise.
  lemma {:induction false} ListingRetold(run: seq<Emission>, h: Hash)
    requires LegalRun(run)
    ensures h in TapeOf(run).listings ==> ListingTold(TapeOf(run).listings[h], run, h)
    ensures h !in TapeOf(run).listings ==> NeverOffered(run, h)
  {
    if run != [] {
      hide Reduce, Legal, ListingTold, NeverOffered;
      var n := |run| - 1;
      ListingRetold(run[..n], h);
      WeeksHold(run[..n]);
      ListingStep(run, TapeOf(run[..n]), BooksOf(run[..n]), h);
    }
  }

  lemma ListingStep(run: seq<Emission>, t: Db, g: Books, h: Hash)
    requires run != [] && SalesLaw(t, g) && Legal(g, run[|run| - 1])
    requires var before := run[..|run| - 1]; if h in t.listings then ListingTold(t.listings[h], before, h) else NeverOffered(before, h)
    ensures var e := run[|run| - 1]; var after := Reduce(t, e.tx, e.log).listings;
            if h in after then ListingTold(after[h], run, h) else NeverOffered(run, h)
  {
    hide SalesLaw, Legal, Reduce, SoldOn, PaidOn, FillsOn, OfferOf, EndOf;
    var e := run[|run| - 1];
    RowStep(t, g, e, h, Latest(run[..|run| - 1], EndOf(h)) == Some(true));
  }

  // What one log does to the table at one order hash, column by column.
  predicate Stepped(listings: map<Hash, Listing>, after: map<Hash, Listing>, e: Emission, h: Hash, ended: bool) {
    && (h in after <==> h in listings || OfferOf(h)(e).Some?)
    && (h in listings ==> OfferOf(h)(e) == None)
    && (h !in listings ==> SoldOn(h)(e) == PaidOn(h)(e) == FillsOn(h)(e) == 0)
    && (h in listings ==>
          var l, m := listings[h], after[h];
          && m.amount == l.amount && m.grossUsdg == l.grossUsdg && m.seq_ == l.seq_
          && m.contractsFilled == l.contractsFilled + SoldOn(h)(e) && m.proceedsUsdg == l.proceedsUsdg + PaidOn(h)(e)
          && m.fillCount == l.fillCount + FillsOn(h)(e)
          && m.status == StatusTold(m, Or(EndOf(h)(e), ended)))
    && (h in after && h !in listings ==>
          var m := after[h];
          && OfferOf(h)(e) == Some(Offer(h, m.amount, m.grossUsdg, m.seq_)) && EndOf(h)(e) == Some(false)
          && m.contractsFilled == m.proceedsUsdg == m.fillCount == 0 && m.status == StatusTold(m, false))
  }

  lemma RowStep(t: Db, g: Books, e: Emission, h: Hash, ended: bool)
    requires SalesLaw(t, g) && Legal(g, e)
    requires h in t.listings ==> t.listings[h].status == StatusTold(t.listings[h], ended)
    ensures Stepped(t.listings, Reduce(t, e.tx, e.log).listings, e, h, ended)
  {
    hide Stepped, SalesLaw, Legal, StatusTold;
    if e.log.OrderFulfilled? {
      FillStep(t, g, e, h, ended);
    } else if e.log.ListingApproved? {
      ApprovalStep(t, g, e, h, ended);
    } else {
      OtherStep(t, e, h, ended);
    }
  }

  lemma FillStep(t: Db, g: Books, e: Emission, h: Hash, ended: bool)
    requires SalesLaw(t, g) && Legal(g, e) && e.log.OrderFulfilled?
    requires h in t.listings ==> t.listings[h].status == StatusTold(t.listings[h], ended)
    ensures Stepped(t.listings, ListingsAfter(t, e.tx, e.log), e, h, ended)
  {
    hide ListingSums, CycleSells, ClaimMirrors, Contracts, ToVault, Added;
    ContractsAreItems(e.log.offer);
    PaymentIsItems(e.log.consideration);
  }

  lemma ApprovalStep(t: Db, g: Books, e: Emission, h: Hash, ended: bool)
    requires SalesLaw(t, g) && Legal(g, e) && e.log.ListingApproved?
    requires h in t.listings ==> t.listings[h].status == StatusTold(t.listings[h], ended)
    ensures Stepped(t.listings, ListingsAfter(t, e.tx, e.log), e, h, ended)
  {
    hide ListingSums, CycleSells, ClaimMirrors, ListingMirrors;
  }

  lemma OtherStep(t: Db, e: Emission, h: Hash, ended: bool)
    requires !e.log.OrderFulfilled? && !e.log.ListingApproved?
    requires h in t.listings ==> t.listings[h].status == StatusTold(t.listings[h], ended)
    ensures Stepped(t.listings, ListingsAfter(t, e.tx, e.log), e, h, ended)
  {
  }

  // On any tape a listing keeps the terms it was first approved with, however often its approval is replayed.
  lemma {:induction false} FirstApprovalStays(run: seq<Emission>, h: Hash)
    ensures var listings := TapeOf(run).listings;
            && (h in listings <==> Earliest(run, OfferOf(h)).Some?)
            && (h in listings ==> Earliest(run, OfferOf(h)) == Some(Offer(h, listings[h].amount, listings[h].grossUsdg, listings[h].seq_)))
  {
    if run != [] {
      hide Reduce;
      FirstApprovalStays(run[..|run| - 1], h);
      TermsStep(TapeOf(run[..|run| - 1]), run[|run| - 1], h);
    }
  }

  lemma TermsStep(t: Db, e: Emission, h: Hash)
    ensures var after := Reduce(t, e.tx, e.log).listings;
            && (h in after <==> h in t.listings || OfferOf(h)(e).Some?)
            && (h in after ==>
                  var m := after[h];
                  Some(Offer(h, m.amount, m.grossUsdg, m.seq_))
                  == if h in t.listings then Some(Offer(h, t.listings[h].amount, t.listings[h].grossUsdg, t.listings[h].seq_)) else OfferOf(h)(e))
  {
    hide Contracts, ToVault;
  }

  // A fill of an order whose approval was never indexed still lands on the live week and in the lifetime premium.
  lemma FillWithoutListing(t: Db, e: Emission)
    requires e.log.OrderFulfilled? && e.log.offerer == Vault && e.log.orderHash !in t.listings
    ensures var u, n := Reduce(t, e.tx, e.log), t.week.cycleNumber;
            && u.listings == t.listings
            && u.money.lifetimePremiumGross == t.money.lifetimePremiumGross + Added(e.log.consideration, UsdgToVault())
            && (n != 0 ==>
                  && CycleOf(u, n).contractsSold == CycleOf(t, n).contractsSold + Added(e.log.offer, CallsSold())
                  && CycleOf(u, n).premiumGross == CycleOf(t, n).premiumGross + Added(e.log.consideration, UsdgToVault()))
            && (n == 0 ==> u.cycles == t.cycles)
  {
    ContractsAreItems(e.log.offer);
    PaymentIsItems(e.log.consideration);
  }

  // ---------------------------------------------------------------- why it ended

  // The later logs of the cancellation's own transaction that say why.
  function Renamed(tx: Hash): Emission -> Option<EndReason> {
    (e: Emission) =>
      if e.tx != tx then None
      else if e.log.AllListingsInvalidated? then Some(Counter)
      else if e.log.BookLocked? then Some(LockBook)
      else if e.log.RollClose? then Some(AtRollClose)
      else None
  }

  predicate LeavesBe(e: Emission, h: Hash) {
    !e.log.ListingCancelled? && !(e.log.OrderFulfilled? && e.log.offerer == Vault && e.log.orderHash == h)
  }

  // A listing cancelled before it filled ends for the last reason its own transaction gives after that, or just
  // as cancelled, and no later transaction changes it; what it sold before decides how it reads.
  lemma {:induction false} CancelledBecause(run: seq<Emission>, cancel: Emission, more: seq<Emission>, h: Hash)
    requires h in TapeOf(run).listings && TapeOf(run).listings[h].status != ListingStatus.Filled
    requires cancel.log == ListingCancelled(h) && forall i :: 0 <= i < |more| ==> LeavesBe(more[i], h)
    ensures var t := TapeOf(run + [cancel] + more);
            && t.book.lastCancelledHash == Some(h) && t.book.lastCancelledTx == Some(cancel.tx)
            && h in t.listings
            && var l := t.listings[h];
               && l.endReason == Some(Or(Latest(more, Renamed(cancel.tx)), ByCancel))
               && l.contractsFilled == TapeOf(run).listings[h].contractsFilled
               && l.status == if l.contractsFilled > 0 then ListingStatus.PartiallyFilled else ListingStatus.Cancelled
    decreases |more|
  {
    hide Reduce, TapeOf, LeavesBe, Renamed;
    if more == [] {
      assert run + [cancel] + more == run + [cancel];
      LastTape(run, cancel);
      CancelStep(TapeOf(run), cancel, h);
      return;
    }
    var n := |more| - 1;
    assert run + [cancel] + more == run + [cancel] + more[..n] + [more[n]];
    CancelledBecause(run, cancel, more[..n], h);
    LastTape(run + [cancel] + more[..n], more[n]);
    ReasonStep(TapeOf(run + [cancel] + more[..n]), more[n], h, cancel.tx);
  }

  lemma CancelStep(t: Db, e: Emission, h: Hash)
    requires h in t.listings && t.listings[h].status != ListingStatus.Filled && e.log == ListingCancelled(h)
    ensures var u := Reduce(t, e.tx, e.log);
            && u.book.lastCancelledHash == Some(h) && u.book.lastCancelledTx == Some(e.tx)
            && h in u.listings
            && var l := u.listings[h];
               && l.endReason == Some(ByCancel) && l.contractsFilled == t.listings[h].contractsFilled
               && l.status == if l.contractsFilled > 0 then ListingStatus.PartiallyFilled else ListingStatus.Cancelled
  {
  }

  lemma ReasonStep(t: Db, e: Emission, h: Hash, tx: Hash)
    requires h in t.listings && t.listings[h].status != ListingStatus.Filled && t.listings[h].endReason.Some? && LeavesBe(e, h)
    requires var l := t.listings[h]; l.status == if l.contractsFilled > 0 then ListingStatus.PartiallyFilled else ListingStatus.Cancelled
    requires t.book.lastCancelledHash == Some(h) && t.book.lastCancelledTx == Some(tx)
    ensures var u := Reduce(t, e.tx, e.log);
            && u.book.lastCancelledHash == Some(h) && u.book.lastCancelledTx == Some(tx)
            && h in u.listings
            && u.listings[h] == t.listings[h].(
                 endReason := if Renamed(tx)(e).Some? then Renamed(tx)(e) else t.listings[h].endReason)
  {
  }

  // A listing that filled ended by filling, whatever cancels or closes come after.
  lemma {:induction false} FilledBecauseSoldOut(run: seq<Emission>, h: Hash)
    ensures h in TapeOf(run).listings && TapeOf(run).listings[h].status == ListingStatus.Filled
            ==> TapeOf(run).listings[h].endReason == Some(FilledUp)
  {
    if run != [] {
      hide ListingsAfter;
      var n := |run| - 1;
      FilledBecauseSoldOut(run[..n], h);
      FilledReasonStays(TapeOf(run[..n]), run[n], h);
    }
  }

  predicate FilledByFilling(listings: map<Hash, Listing>, h: Hash) {
    h in listings && listings[h].status == ListingStatus.Filled ==> listings[h].endReason == Some(FilledUp)
  }

  lemma FilledReasonStays(t: Db, e: Emission, h: Hash)
    requires FilledByFilling(t.listings, h)
    ensures FilledByFilling(ListingsAfter(t, e.tx, e.log), h)
  {
  }

  // Seaport's own cancellation gives a reason only where there is none yet.
  lemma SeaportKeepsReason(t: Db, tx: Hash, h: Hash)
    requires h in t.listings && t.listings[h].status != ListingStatus.Filled
    ensures var l, m := t.listings[h], Reduce(t, tx, OrderCancelled(h)).listings[h];
            && m.endReason == Some(Or(l.endReason, ByCancel)) && m.contractsFilled == l.contractsFilled
            && m.status == if m.contractsFilled > 0 then ListingStatus.PartiallyFilled else ListingStatus.Cancelled
  {
  }
}
