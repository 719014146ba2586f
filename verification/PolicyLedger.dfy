// The policy over whole runs: whatever else happens, deposits, payouts, haircuts, closes and rolls included, a
// run whose every fill fits the capacity shown just before it is within the policy at every step.
module PolicyLedger {
  import opened Common
  import opened History
  import opened Rows
  import opened Logs
  import opened Reducers
  import opened Chain
  import opened PhaseMirror
  import opened QueueMirror
  import opened ReserveLedger
  import opened ShareLedger
  import opened Capacity
  import opened VaultHistory
  import opened Runs
  import opened Theorems

  // One log, or the two logs that move one amount between the vault's columns, with anything that moves none of
  // them in between: a fill's collateral out and its write, a payout's tokens out and its report.
  datatype Move = One(e: Emission) | Pair(first: Emission, between: seq<Emission>, second: Emission)

  function LogsOf(m: Move): seq<Emission> {
    match m
    case One(e) => [e]
    case Pair(first, between, second) => [first] + between + [second]
  }

  function RunOf(moves: seq<Move>): seq<Emission> {
    if moves == [] then [] else RunOf(moves[..|moves| - 1]) + LogsOf(moves[|moves| - 1])
  }

  // The log moves none of the four columns utilization is read from.
  predicate Aside(log: Log) {
    && !log.AssetIn? && !log.AssetOut? && !log.QueueSettled? && !log.ReserveHaircut? && !log.CompleteRedeem?
    && !log.RollOpen? && !log.CallsWritten? && !log.RollClose? && !log.ClaimRedeemed? && !log.StrandedClaimRecovered?
  }

  predicate Fills(m: Move) {
    && m.Pair? && m.first.log.AssetOut? && m.second.log.CallsWritten? && m.first.log.amount == m.second.log.collateral
    && forall i :: 0 <= i < |m.between| ==> Aside(m.between[i].log)
  }

  // The tokens may leave before or after the vault reports the payout.
  predicate PaysOut(m: Move) {
    && m.Pair?
    && (|| (m.first.log.AssetOut? && m.second.log.CompleteRedeem? && m.first.log.amount == m.second.log.assets)
        || (m.first.log.CompleteRedeem? && m.second.log.AssetOut? && m.first.log.assets == m.second.log.amount))
    && forall i :: 0 <= i < |m.between| ==> Aside(m.between[i].log)
  }

  // Every fill fits its own moment's capacity; and while contracts are written no asset leaves except into a fill
  // or a payout (the issuer's burn does), and no epoch takes its slice (only a stranded week lets one).
  predicate InOrder(t: Db, m: Move, p: Policy) {
    match m
    case One(e) => !e.log.CallsWritten? && (e.log.AssetOut? || e.log.QueueSettled? ==> t.week.contractsWritten == 0)
    case Pair(_, _, second) => PaysOut(m) || (Fills(m) && second.log.contracts <= Room(t, p))
  }

  predicate AllInOrder(moves: seq<Move>, p: Policy) {
    forall i :: 0 <= i < |moves| ==> InOrder(TapeOf(RunOf(moves[..i])), moves[i], p)
  }

  // ---------------------------------------------------------------- the four columns

  datatype Figures = Figures(balance: nat, reserved: nat, written: nat, locked: nat)

  function FiguresOf(t: Db): Figures {
    Figures(t.funds.assetBalance, t.funds.reservedAssets, t.week.contractsWritten, t.week.lockedCollateral)
  }

  lemma SameFiguresSamePolicy(t: Db, u: Db, p: Policy)
    requires FiguresOf(t) == FiguresOf(u)
    ensures WithinPolicy(t, p) <==> WithinPolicy(u, p)
  {
  }

  lemma AsideKeepsFigures(t: Db, tx: Hash, log: Log)
    requires Aside(log)
    ensures FiguresOf(Reduce(t, tx, log)) == FiguresOf(t)
  {
  }

  lemma {:induction false} AsideStill(run: seq<Emission>, more: seq<Emission>)
    requires forall i :: 0 <= i < |more| ==> Aside(more[i].log)
    ensures FiguresOf(TapeOf(run + more)) == FiguresOf(TapeOf(run))
    decreases |more|
  {
    hide FiguresOf, Reduce, Aside;
    if more == [] {
      assert run + more == run;
    } else {
      var n := |more| - 1;
      AsideStill(run, more[..n]);
      assert (run + more)[..|run + more| - 1] == run + more[..n];
      AsideKeepsFigures(TapeOf(run + more[..n]), more[n].tx, more[n].log);
    }
  }

  // ---------------------------------------------------------------- one move

  // No other log lowers total assets, or writes anything, while contracts are written.
  lemma OneKeepsPolicy(t: Db, g: Books, e: Emission, p: Policy)
    requires PhaseLaw(t, g) && Legal(g, e) && WithinPolicy(t, p) && InOrder(t, One(e), p)
    requires var w := Reduce(t, e.tx, e.log).week; w.lockedCollateral == w.contractsWritten * LOT
    ensures WithinPolicy(Reduce(t, e.tx, e.log), p)
  {
    hide PhaseLaw, Legal, TotalAssets, FundsAfter, WeekAfter;
    var u := Reduce(t, e.tx, e.log);
    if u.week.contractsWritten == 0 {
      NothingWrittenFits(u, p);
    } else {
      WrittenStands(t, g, e);
      BackingStands(t, g, e);
      MoreBackingFits(t, u, p);
    }
  }

  lemma NothingWrittenFits(u: Db, p: Policy)
    requires u.week.contractsWritten == 0 && u.week.lockedCollateral == 0 && p.maxUtilizationBps <= BPS
    ensures WithinPolicy(u, p)
  {
  }

  lemma MoreBackingFits(t: Db, u: Db, p: Policy)
    requires WithinPolicy(t, p) && TotalAssets(t) <= TotalAssets(u)
    requires u.week.contractsWritten == t.week.contractsWritten && u.week.lockedCollateral == t.week.lockedCollateral
    ensures WithinPolicy(u, p)
  {
    hide TotalAssets;
    Scale(TotalAssets(t), TotalAssets(u), p.maxUtilizationBps);
  }

  lemma WrittenStands(t: Db, g: Books, e: Emission)
    requires PhaseLaw(t, g) && Legal(g, e) && !e.log.CallsWritten?
    requires WeekAfter(t, e.tx, e.log).contractsWritten != 0
    ensures WeekAfter(t, e.tx, e.log).contractsWritten == t.week.contractsWritten
    ensures !e.log.RollOpen? && !e.log.ClaimRedeemed? && !e.log.StrandedClaimRecovered?
  {
  }

  lemma BackingStands(t: Db, g: Books, e: Emission)
    requires t.week.contractsWritten != 0 && t.week.lockedCollateral == t.week.contractsWritten * LOT
    requires !e.log.CallsWritten? && !e.log.AssetOut? && !e.log.QueueSettled? && !e.log.StrandedClaimRecovered?
    requires var w := Reduce(t, e.tx, e.log).week;
             w.contractsWritten == t.week.contractsWritten && w.lockedCollateral == w.contractsWritten * LOT
    ensures TotalAssets(t) <= TotalAssets(Reduce(t, e.tx, e.log))
  {
  }

  // A payout takes the same amount from the balance and from the reserve.
  lemma PayoutKeepsPolicy(t: Db, u: Db, p: Policy, paid: nat)
    requires WithinPolicy(t, p) && paid <= t.funds.assetBalance && paid <= t.funds.reservedAssets
    requires FiguresOf(u) == FiguresOf(t).(balance := t.funds.assetBalance - paid, reserved := t.funds.reservedAssets - paid)
    ensures WithinPolicy(u, p)
  {
  }

  // The three steps of a pair, as the tables show them.
  lemma {:induction false} PairSteps(run: seq<Emission>, m: Move)
    requires m.Pair? && LegalRun(run + LogsOf(m))
    requires forall i :: 0 <= i < |m.between| ==> Aside(m.between[i].log)
    ensures var mid := run + [m.first] + m.between;
            && LegalRun(run) && LegalRun(mid) && Legal(BooksOf(run), m.first) && Legal(BooksOf(mid), m.second)
            && FiguresOf(TapeOf(mid)) == FiguresOf(Reduce(TapeOf(run), m.first.tx, m.first.log))
            && TapeOf(run + LogsOf(m)) == Reduce(TapeOf(mid), m.second.tx, m.second.log)
  {
    hide LegalRun, TapeOf, BooksOf, Legal, Reduce, FiguresOf, Aside;
    var mid := run + [m.first] + m.between;
    assert run + LogsOf(m) == mid + [m.second];
    LastLog(mid, m.second);
    PrefixLegal(run + [m.first], m.between);
    LastLog(run, m.first);
    AsideStill(run + [m.first], m.between);
  }

  lemma TokensLeave(t: Db, g: Books, e: Emission)
    requires ShareLaw(t, g) && Legal(g, e) && e.log.AssetOut?
    ensures e.log.amount <= t.funds.assetBalance
    ensures FiguresOf(Reduce(t, e.tx, e.log)) == FiguresOf(t).(balance := t.funds.assetBalance - e.log.amount)
  {
  }

  lemma ReserveFalls(t: Db, g: Books, e: Emission)
    requires QueueLaw(t, g) && ReserveLaw(t, g) && Legal(g, e) && e.log.CompleteRedeem?
    ensures e.log.assets <= t.funds.reservedAssets
    ensures FiguresOf(Reduce(t, e.tx, e.log)) == FiguresOf(t).(reserved := t.funds.reservedAssets - e.log.assets)
  {
    OwedFits(t, g, e.log.owner, StockLeg);
  }

  lemma WriteLocks(t: Db, g: Books, e: Emission)
    requires Legal(g, e) && e.log.CallsWritten?
    ensures e.log.collateral == e.log.contracts * LOT
    ensures var f := FiguresOf(t);
            FiguresOf(Reduce(t, e.tx, e.log)) == f.(written := f.written + e.log.contracts, locked := f.locked + e.log.collateral)
  {
  }

  lemma {:induction false} PayoutInOrder(run: seq<Emission>, m: Move, p: Policy)
    requires LegalRun(run + LogsOf(m)) && PaysOut(m) && WithinPolicy(TapeOf(run), p)
    ensures WithinPolicy(TapeOf(run + LogsOf(m)), p)
  {
    hide LegalRun, TapeOf, BooksOf, Legal, Reduce, WithinPolicy, Aside, LogsOf;
    PairSteps(run, m);
    var mid := run + [m.first] + m.between;
    ReservesHold(run);
    QueueHolds(run);
    ReservesHold(mid);
    QueueHolds(mid);
    if m.first.log.AssetOut? {
      TokensLeave(TapeOf(run), BooksOf(run), m.first);
      ReserveFalls(TapeOf(mid), BooksOf(mid), m.second);
      PayoutKeepsPolicy(TapeOf(run), TapeOf(run + LogsOf(m)), p, m.first.log.amount);
    } else {
      ReserveFalls(TapeOf(run), BooksOf(run), m.first);
      TokensLeave(TapeOf(mid), BooksOf(mid), m.second);
      PayoutKeepsPolicy(TapeOf(run), TapeOf(run + LogsOf(m)), p, m.second.log.amount);
    }
  }

  lemma {:induction false} FillInOrder(run: seq<Emission>, m: Move, p: Policy)
    requires LegalRun(run + LogsOf(m)) && Fills(m) && WithinPolicy(TapeOf(run), p)
    requires m.second.log.contracts <= Room(TapeOf(run), p)
    ensures WithinPolicy(TapeOf(run + LogsOf(m)), p)
  {
    hide LegalRun, TapeOf, BooksOf, Legal, Reduce, WithinPolicy, Aside, LogsOf, Room;
    PairSteps(run, m);
    QueueHolds(run);
    var t, u := TapeOf(run), TapeOf(run + LogsOf(m));
    var mid := run + [m.first] + m.between;
    TokensLeave(t, BooksOf(run), m.first);
    WriteLocks(TapeOf(mid), BooksOf(mid), m.second);
    var f := Fill(m.second.tx, m.second.log.optionId, m.second.log.claimKey, m.second.log.contracts);
    FillSpendsRoom(t, p, f);
    FillFigures(t, f);
    SameFiguresSamePolicy(u, AfterFill(t, f), p);
  }

  lemma FillFigures(t: Db, f: Fill)
    ensures var c := f.contracts * LOT;
            FiguresOf(AfterFill(t, f)) == Figures(Sub(t.funds.assetBalance, c), t.funds.reservedAssets,
                                                  t.week.contractsWritten + f.contracts, t.week.lockedCollateral + c)
  {
  }

  lemma {:induction false} OneInOrder(run: seq<Emission>, e: Emission, p: Policy)
    requires LegalRun(run + [e]) && InOrder(TapeOf(run), One(e), p) && WithinPolicy(TapeOf(run), p)
    ensures WithinPolicy(TapeOf(run + [e]), p)
  {
    hide LegalRun, TapeOf, BooksOf, Legal, Reduce, WithinPolicy, InOrder;
    LastLog(run, e);
    WeeksHold(run);
    LockedIsWritten(run + [e]);
    OneKeepsPolicy(TapeOf(run), BooksOf(run), e, p);
  }

  // Total assets are what came in and did not leave, less what is reserved, and one lot for each contract written;
  // what is reserved beyond the balance is not counted against them.
  lemma {:induction false} TotalAssetsTold(run: seq<Emission>)
    requires LegalRun(run)
    ensures var t := TapeOf(run);
            var held, reserved := Added(run, AssetsMoved()), t.funds.reservedAssets;
            TotalAssets(t) == (if reserved <= held then held - reserved else 0) + t.week.contractsWritten * 1_000_000_000_000_000_000
  {
    hide LegalRun, TapeOf, Added;
    BalancesRetold(run);
    LockedIsWritten(run);
  }

  // ---------------------------------------------------------------- whole runs

  // From the deploy on, any legal run whose fills fit stays within the policy, through any deposits, payouts,
  // haircuts, closes, recoveries and rolls between them.
  lemma {:induction false} RunKeepsPolicy(moves: seq<Move>, p: Policy)
    requires LegalRun(RunOf(moves)) && AllInOrder(moves, p) && p.maxUtilizationBps <= BPS
    ensures WithinPolicy(TapeOf(RunOf(moves)), p)
  {
    if moves != [] {
      hide LegalRun, TapeOf, BooksOf, WithinPolicy, InOrder;
      var n := |moves| - 1;
      var run, m := RunOf(moves[..n]), moves[n];
      PrefixLegal(run, LogsOf(m));
      EarlierInOrder(moves, p);
      RunKeepsPolicy(moves[..n], p);
      MoveInOrder(run, m, p);
    }
  }

  lemma EarlierInOrder(moves: seq<Move>, p: Policy)
    requires moves != [] && AllInOrder(moves, p)
    ensures AllInOrder(moves[..|moves| - 1], p) && InOrder(TapeOf(RunOf(moves[..|moves| - 1])), moves[|moves| - 1], p)
  {
    hide TapeOf, RunOf, InOrder;
    var n := |moves| - 1;
    assert forall i :: 0 <= i < n ==> moves[..n][..i] == moves[..i];
  }

  lemma {:induction false} MoveInOrder(run: seq<Emission>, m: Move, p: Policy)
    requires LegalRun(run + LogsOf(m)) && InOrder(TapeOf(run), m, p) && WithinPolicy(TapeOf(run), p)
    ensures WithinPolicy(TapeOf(run + LogsOf(m)), p)
  {
    hide LegalRun, TapeOf, BooksOf, WithinPolicy, Fills, PaysOut;
    if m.One? {
      OneInOrder(run, m.e, p);
    } else if PaysOut(m) {
      PayoutInOrder(run, m, p);
    } else {
      FillInOrder(run, m, p);
    }
  }
}
