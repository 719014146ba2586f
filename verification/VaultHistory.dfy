// The vaultState row read straight off the logs: every lifetime figure is the total of the logs that report
// it, and every setting of the week is the last one said.
module VaultHistory {
  import opened Common
  import opened History
  import opened Harvest
  import opened Lifecycle
  import opened Rows
  import opened Logs
  import opened Reducers
  import opened Chain
  import opened PhaseMirror
  import opened QueueMirror
  import opened ShareLedger
  import opened Runs

  // ---------------------------------------------------------------- lifetime figures

  function StrikeUsdg(): Emission -> int {
    (e: Emission) => if e.log.RollClose? || e.log.StrandedClaimRecovered? then e.log.usdg else 0
  }

  function FeeUsdg(): Emission -> int { (e: Emission) => if e.log.Harvest? then e.log.fee else 0 }

  function NetUsdg(): Emission -> int { (e: Emission) => if e.log.Harvest? then e.log.net else 0 }

  // What buyers paid the vault on its own orders.
  function PremiumUsdg(): Emission -> int {
    (e: Emission) => if e.log.OrderFulfilled? && e.log.offerer == Vault then Added(e.log.consideration, UsdgToVault()) else 0
  }

  function Distributed(): Emission -> int { (e: Emission) => if e.log.UsdgDistributed? then e.log.amount else 0 }

  // Claims, and the escrow's own take at each settlement.
  function UsdgClaimed(): Emission -> int {
    (e: Emission) => if e.log.ClaimUsdg? then e.log.amount else if e.log.QueueSettled? then e.log.usdg else 0
  }

  function Shortfall(): Emission -> int {
    (e: Emission) => if e.log.ReserveHaircut? && e.log.paid < e.log.booked then e.log.booked - e.log.paid else 0
  }

  function Armed(): Emission -> int { (e: Emission) => if e.log.RollOpen? then 1 else 0 }

  function Strandings(): Emission -> int { (e: Emission) => if e.log.ClaimStranded? then 1 else 0 }

  // ---------------------------------------------------------------- settings

  function ShareIndex(): Emission -> Option<nat> {
    (e: Emission) => if e.log.UsdgDistributed? then Some(e.log.accUsdgPerShare) else None
  }

  // What is carried is folded in by the next distribution.
  function Carried(): Emission -> Option<nat> {
    (e: Emission) => if e.log.UsdgDistributed? then Some(0) else if e.log.UsdgUnallocated? then Some(e.log.total) else None
  }

  function Terms(): Emission -> Option<OptionTerms> {
    (e: Emission) =>
      if !e.log.RollOpen? then None
      else
        var w := e.log.window;
        Some(OptionTerms(e.log.strikeUsdg, if w.optionExercise != 0 then w.optionExercise else w.vaultExercise,
                         if w.optionExpiry != 0 then w.optionExpiry else w.vaultExpiry))
  }

  function ListingCount(): Emission -> Option<nat> {
    (e: Emission) => if e.log.RollOpen? then Some(0) else if e.log.ListingApproved? then Some(e.log.seq_) else None
  }

  function Cancelled(): Emission -> Option<Hash> {
    (e: Emission) => if e.log.ListingCancelled? then Some(e.log.orderHash) else None
  }

  function CancelledIn(): Emission -> Option<Hash> { (e: Emission) => if e.log.ListingCancelled? then Some(e.tx) else None }

  function Counters(): Emission -> Option<nat> {
    (e: Emission) => if e.log.AllListingsInvalidated? || e.log.CounterIncremented? then Some(e.log.newCounter) else None
  }

  function ClosedIn(): Emission -> Option<Hash> { (e: Emission) => if e.log.RollClose? then Some(e.tx) else None }

  // ---------------------------------------------------------------- on any tape at all

  lemma {:induction false} LifetimesRetold(run: seq<Emission>)
    ensures var y, f, n := TapeOf(run).money, TapeOf(run).funds, TapeOf(run).tally;
            && y.lifetimeAssignmentUsdg == Added(run, StrikeUsdg())
            && y.lifetimeProtocolFee == Added(run, FeeUsdg()) && y.lifetimeCreditedUsdg == Added(run, NetUsdg())
            && y.lifetimePremiumGross == Added(run, PremiumUsdg())
            && y.totalUsdgDistributed == Added(run, Distributed())
            && f.totalUsdgClaimed == Added(run, UsdgClaimed()) && f.lifetimeHaircutAssets == Added(run, Shortfall())
            && n.cyclesWritten == Added(run, Armed()) && n.cyclesStranded == Added(run, Strandings())
  {
    if run != [] {
      hide Reduce, MoneyAfter, FundsAfter, TallyAfter;
      var n := |run| - 1;
      LifetimesRetold(run[..n]);
      MoneyStep(TapeOf(run[..n]), run[n]);
      FundsStep(TapeOf(run[..n]), run[n]);
    }
  }

  lemma MoneyStep(t: Db, e: Emission)
    ensures var y, z := t.money, Reduce(t, e.tx, e.log).money;
            && z.lifetimeAssignmentUsdg == y.lifetimeAssignmentUsdg + StrikeUsdg()(e)
            && z.lifetimeProtocolFee == y.lifetimeProtocolFee + FeeUsdg()(e)
            && z.lifetimeCreditedUsdg == y.lifetimeCreditedUsdg + NetUsdg()(e)
            && z.lifetimePremiumGross == y.lifetimePremiumGross + PremiumUsdg()(e)
            && z.totalUsdgDistributed == y.totalUsdgDistributed + Distributed()(e)
            && z.accUsdgPerShare == Or(ShareIndex()(e), y.accUsdgPerShare)
            && z.usdgUnallocated == Or(Carried()(e), y.usdgUnallocated)
  {
    hide SplitHarvest, FeeFree, ToVault;
    if e.log.OrderFulfilled? {
      PaymentIsItems(e.log.consideration);
    }
  }

  lemma FundsStep(t: Db, e: Emission)
    ensures var f, h := t.funds, Reduce(t, e.tx, e.log).funds;
            && h.totalUsdgClaimed == f.totalUsdgClaimed + UsdgClaimed()(e)
            && h.lifetimeHaircutAssets == f.lifetimeHaircutAssets + Shortfall()(e)
    ensures var n, m := t.tally, Reduce(t, e.tx, e.log).tally;
            m.cyclesWritten == n.cyclesWritten + Armed()(e) && m.cyclesStranded == n.cyclesStranded + Strandings()(e)
  {
    hide OriginIn, RecoverStrand;
  }

  lemma {:induction false} SettingsRetold(run: seq<Emission>)
    ensures var t := TapeOf(run); var w, b := t.week, t.book;
            && w.terms == Or(Latest(run, Terms()), NO_TERMS) && w.rollCloseTx == Latest(run, ClosedIn())
            && t.money.accUsdgPerShare == Or(Latest(run, ShareIndex()), 0)
            && t.money.usdgUnallocated == Or(Latest(run, Carried()), 0)
            && b.listingsThisCycle == Or(Latest(run, ListingCount()), 0)
            && b.lastCancelledHash == Latest(run, Cancelled()) && b.lastCancelledTx == Latest(run, CancelledIn())
            && b.seaportCounter == Or(Latest(run, Counters()), 0)
  {
    if run != [] {
      hide Reduce, MoneyAfter, WeekAfter, BookAfter;
      var n := |run| - 1;
      SettingsRetold(run[..n]);
      MoneyStep(TapeOf(run[..n]), run[n]);
      SettingsStep(TapeOf(run[..n]), run[n]);
    }
  }

  lemma SettingsStep(t: Db, e: Emission)
    ensures var w, v := t.week, Reduce(t, e.tx, e.log).week;
            v.terms == Or(Terms()(e), w.terms) && v.rollCloseTx == if e.log.RollClose? then Some(e.tx) else w.rollCloseTx
    ensures var b, c := t.book, Reduce(t, e.tx, e.log).book;
            && c.listingsThisCycle == Or(ListingCount()(e), b.listingsThisCycle)
            && c.lastCancelledHash == (if e.log.ListingCancelled? then Some(e.log.orderHash) else b.lastCancelledHash)
            && c.lastCancelledTx == (if e.log.ListingCancelled? then Some(e.tx) else b.lastCancelledTx)
            && c.seaportCounter == Or(Counters()(e), b.seaportCounter)
  {
    hide OriginIn;
  }

  // ---------------------------------------------------------------- on legal runs

  function AssetsMoved(): Emission -> int {
    (e: Emission) => if e.log.AssetIn? then e.log.amount else if e.log.AssetOut? then 0 - e.log.amount else 0
  }

  function UsdgMoved(): Emission -> int {
    (e: Emission) => if e.log.UsdgIn? then e.log.amount else if e.log.UsdgOut? then 0 - e.log.amount else 0
  }

  function SharesMinted(): Emission -> int {
    (e: Emission) =>
      if !e.log.Transfer? then 0
      else (if e.log.from == Zero then e.log.value else 0) - if e.log.to == Zero then e.log.value else 0
  }

  function Settlements(): Emission -> int { (e: Emission) => if e.log.QueueSettled? then 1 else 0 }

  // Balances and supply are what came in less what went out; the open epoch follows the settled ones.
  lemma {:induction false} BalancesRetold(run: seq<Emission>)
    requires LegalRun(run)
    ensures var f, s := TapeOf(run).funds, TapeOf(run).supply;
            && f.assetBalance == Added(run, AssetsMoved()) && f.usdgBalance == Added(run, UsdgMoved())
            && s.totalShares == Added(run, SharesMinted())
            && s.epochId == 1 + Added(run, Settlements())
  {
    if run != [] {
      hide Reduce, Legal, FundsAfter, SupplyAfter;
      var n := |run| - 1;
      BalancesRetold(run[..n]);
      BalanceLaws(run[..n]);
      BalanceStep(TapeOf(run[..n]), BooksOf(run[..n]), run[n]);
    }
  }

  lemma {:induction false} BalanceLaws(run: seq<Emission>)
    requires LegalRun(run)
    ensures QueueLaw(TapeOf(run), BooksOf(run)) && ShareLaw(TapeOf(run), BooksOf(run))
  {
    hide LegalRun, TapeOf, BooksOf;
    EveryRun(run);
  }

  lemma BalanceStep(t: Db, g: Books, e: Emission)
    requires QueueLaw(t, g) && ShareLaw(t, g) && Legal(g, e)
    ensures var f, h := t.funds, Reduce(t, e.tx, e.log).funds;
            h.assetBalance == f.assetBalance + AssetsMoved()(e) && h.usdgBalance == f.usdgBalance + UsdgMoved()(e)
    ensures var s, r := t.supply, Reduce(t, e.tx, e.log).supply;
            r.totalShares == s.totalShares + SharesMinted()(e) && r.epochId == s.epochId + Settlements()(e)
  {
    hide RecoverStrand, UserMirrors, SettledMirrors;
    if e.log.Transfer? {
      BalanceFits(t, g, e.log.from);
    }
  }
}
