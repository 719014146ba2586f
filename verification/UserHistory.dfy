// Every user row read straight off the logs, on any tape at all: what its owner put in and took out is the
// total of the logs that name that owner, and a deferred USDG leg is the last one said.
module UserHistory {
  import opened Common
  import opened History
  import opened Rows
  import opened Logs
  import opened Reducers
  import opened Chain
  import opened Runs

  function DepositsOf(a: Address): Emission -> int {
    (e: Emission) => if e.log.Deposit? && e.log.owner == a then e.log.assets else 0
  }

  function TimesDeposited(a: Address): Emission -> int {
    (e: Emission) => if e.log.Deposit? && e.log.owner == a then 1 else 0
  }

  function WithdrawalsOf(a: Address): Emission -> int {
    (e: Emission) => if e.log.Withdraw? && e.log.owner == a then e.log.assets else 0
  }

  function AssetsPaidTo(a: Address): Emission -> int {
    (e: Emission) => if e.log.CompleteRedeem? && e.log.owner == a then e.log.assets else 0
  }

  function UsdgPaidTo(a: Address): Emission -> int {
    (e: Emission) => if e.log.CompleteRedeem? && e.log.owner == a then e.log.usdg else 0
  }

  function ClaimsOf(a: Address): Emission -> int {
    (e: Emission) => if e.log.ClaimUsdg? && e.log.owner == a then e.log.amount else 0
  }

  // What haircuts cost; a haircut never pays more than was booked, and one that did would cost nothing.
  function HaircutsOf(a: Address): Emission -> int {
    (e: Emission) => if e.log.ReserveHaircut? && e.log.owner == a && e.log.paid < e.log.booked then e.log.booked - e.log.paid else 0
  }

  // A leg is deferred at what the log says is still owed, until USDG is next paid.
  function Deferral(a: Address): Emission -> Option<nat> {
    (e: Emission) =>
      if e.log.UsdgLegDeferred? && e.log.owner == a then Some(e.log.usdg)
      else if e.log.CompleteRedeem? && e.log.owner == a && 0 < e.log.usdg then Some(0)
      else None
  }

  lemma {:induction false} UserRetold(run: seq<Emission>, a: Address)
    ensures var u := UserOf(TapeOf(run), a);
            && u.depositedAssets == Added(run, DepositsOf(a)) && u.depositCount == Added(run, TimesDeposited(a))
            && u.withdrawnAssets == Added(run, WithdrawalsOf(a))
            && u.redeemedAssets == Added(run, AssetsPaidTo(a)) && u.redeemedUsdg == Added(run, UsdgPaidTo(a))
            && u.claimedUsdg == Added(run, ClaimsOf(a))
            && u.haircutAssets == Added(run, HaircutsOf(a))
            && u.deferredUsdg == Or(Latest(run, Deferral(a)), 0)
  {
    if run != [] {
      hide Reduce;
      var n := |run| - 1;
      UserRetold(run[..n], a);
      UserStep(TapeOf(run[..n]), run[n], a);
    }
  }

  // What one log does to each figure.
  lemma UserStep(t: Db, e: Emission, a: Address)
    ensures var u, v := UserOf(t, a), UserOf(Reduce(t, e.tx, e.log), a);
            && v.depositedAssets == u.depositedAssets + DepositsOf(a)(e) && v.depositCount == u.depositCount + TimesDeposited(a)(e)
            && v.withdrawnAssets == u.withdrawnAssets + WithdrawalsOf(a)(e)
            && v.redeemedAssets == u.redeemedAssets + AssetsPaidTo(a)(e) && v.redeemedUsdg == u.redeemedUsdg + UsdgPaidTo(a)(e)
            && v.claimedUsdg == u.claimedUsdg + ClaimsOf(a)(e)
            && v.haircutAssets == u.haircutAssets + HaircutsOf(a)(e)
            && v.deferredUsdg == Or(Deferral(a)(e), u.deferredUsdg)
  {
    hide UserAfter;
    RowMoves(t, e, a);
    if OwnerOf(e.log) == Some(a) {
      OwnerStep(t, e, UserOf(t, a), a);
    }
  }

  lemma RowMoves(t: Db, e: Emission, a: Address)
    ensures var u, v := UserOf(t, a), UserOf(Reduce(t, e.tx, e.log), a);
            if OwnerOf(e.log) == Some(a) then v == UserAfter(t, e.log, u) else v == u.(shares := v.shares)
  {
    hide UserAfter;
  }

  lemma OwnerStep(t: Db, e: Emission, u: User, a: Address)
    requires OwnerOf(e.log) == Some(a)
    ensures var v := UserAfter(t, e.log, u);
            && v.depositedAssets == u.depositedAssets + DepositsOf(a)(e) && v.depositCount == u.depositCount + TimesDeposited(a)(e)
            && v.withdrawnAssets == u.withdrawnAssets + WithdrawalsOf(a)(e)
            && v.redeemedAssets == u.redeemedAssets + AssetsPaidTo(a)(e) && v.redeemedUsdg == u.redeemedUsdg + UsdgPaidTo(a)(e)
            && v.claimedUsdg == u.claimedUsdg + ClaimsOf(a)(e)
            && v.haircutAssets == u.haircutAssets + HaircutsOf(a)(e)
            && v.deferredUsdg == Or(Deferral(a)(e), u.deferredUsdg)
  {
    hide EntryShareOf;
  }

  // Who has a row at all: an owner some log has named, or a holder some shares have moved from or to; the zero
  // address and the vault's own escrow never get one from a transfer.
  function Named(a: Address): Emission -> Option<bool> {
    (e: Emission) =>
      if OwnerOf(e.log) == Some(a) then Some(true)
      else if e.log.Transfer? && e.log.value > 0 && (e.log.from == a || e.log.to == a) && a != Zero && a != Vault then Some(true)
      else None
  }

  lemma {:induction false} RowsAreNamed(run: seq<Emission>, a: Address)
    ensures a in TapeOf(run).users <==> Latest(run, Named(a)).Some?
  {
    if run != [] {
      hide Reduce;
      RowsAreNamed(run[..|run| - 1], a);
      NamedStep(TapeOf(run[..|run| - 1]), run[|run| - 1], a);
    }
  }

  lemma NamedStep(t: Db, e: Emission, a: Address)
    ensures a in Reduce(t, e.tx, e.log).users <==> a in t.users || Named(a)(e).Some?
  {
    hide UserAfter;
  }

  // A deferral on record is what the contract owes its owner at that moment.
  lemma {:induction false} DeferralIsOwed(run: seq<Emission>, e: Emission)
    requires LegalRun(run) && Legal(BooksOf(run), e) && e.log.UsdgLegDeferred?
    ensures UserOf(TapeOf(run + [e]), e.log.owner).deferredUsdg == OwedTo(BooksOf(run + [e]).queue, e.log.owner).usdg
  {
    assert (run + [e])[..|run|] == run;
  }
}
