// Write on fill against the policy's capacity: the figures the API derives from the vault row
// (capacity of indexer/lib/lifecycle.ts) and the keeper checks its listing against (capacityOf of
// keeper/src/dryrun-common.ts), through any sequence of fills.
module Capacity {
  import opened Common
  import opened Lifecycle
  import opened Rows
  import opened Logs
  import opened Reducers

  datatype Policy = Policy(maxUtilizationBps: nat, maxContractsCap: nat)

  // The keeper's own statement of the same figure.
  function CapacityOf(totalAssets: nat, written: nat, p: Policy): nat {
    var byUtilisation := totalAssets * p.maxUtilizationBps / BPS / LOT;
    var cap := if byUtilisation < p.maxContractsCap then byUtilisation else p.maxContractsCap;
    if cap > written then cap - written else 0
  }

  // A snapshot's totalAssets: what is idle and what is locked in Valorem.
  function TotalAssets(t: Db): nat { IdleOf(t.funds) + t.week.lockedCollateral }

  function Room(t: Db, p: Policy): nat {
    Lifecycle.Capacity(p.maxUtilizationBps, p.maxContractsCap, TotalAssets(t), t.week.contractsWritten)
  }

  // A fee-free fill: Valorem pulls the collateral, then the vault reports what it wrote.
  datatype Fill = Fill(tx: Hash, optionId: nat, claimKey: nat, contracts: nat)

  function AfterFill(t: Db, f: Fill): Db {
    Reduce(Reduce(t, f.tx, AssetOut(f.contracts * LOT)), f.tx, CallsWritten(f.optionId, f.claimKey, f.contracts, f.contracts * LOT))
  }

  function AfterFills(t: Db, fills: seq<Fill>): Db {
    if fills == [] then t else AfterFill(AfterFills(t, fills[..|fills| - 1]), fills[|fills| - 1])
  }

  function SizeOf(fills: seq<Fill>): nat {
    if fills == [] then 0 else SizeOf(fills[..|fills| - 1]) + fills[|fills| - 1].contracts
  }

  // Each fill fits the capacity its own block shows.
  predicate EachFits(t: Db, p: Policy, fills: seq<Fill>) {
    fills == [] || (EachFits(t, p, fills[..|fills| - 1])
                    && fills[|fills| - 1].contracts <= Room(AfterFills(t, fills[..|fills| - 1]), p))
  }

  // The week is within the policy: its collateral is its contracts', and they fit both bounds.
  predicate WithinPolicy(t: Db, p: Policy) {
    && p.maxUtilizationBps <= 10_000
    && t.week.lockedCollateral == t.week.contractsWritten * 1_000_000_000_000_000_000
    && t.week.contractsWritten * 1_000_000_000_000_000_000 * 10_000 <= TotalAssets(t) * p.maxUtilizationBps
    && t.week.contractsWritten <= p.maxContractsCap
  }

  // ---------------------------------------------------------------- one fill

  // The most contracts the two bounds allow, in the units they are stated in.
  lemma RoomFits(t: Db, p: Policy, n: nat)
    requires WithinPolicy(t, p) && n <= Room(t, p)
    ensures (t.week.contractsWritten + n) * LOT * BPS <= TotalAssets(t) * p.maxUtilizationBps
    ensures t.week.contractsWritten + n <= p.maxContractsCap
    ensures n * LOT <= IdleOf(t.funds)
  {
    var allowed := TotalAssets(t) * p.maxUtilizationBps;
    MulMonotone(TotalAssets(t), p.maxUtilizationBps, BPS);
  }

  // A fill within capacity moves collateral from idle to locked, spends exactly its own size of
  // capacity and stays within the policy; nothing is clamped on the way.
  lemma FillSpendsRoom(t: Db, p: Policy, f: Fill)
    requires WithinPolicy(t, p) && f.contracts <= Room(t, p)
    ensures var after := AfterFill(t, f);
            && WithinPolicy(after, p)
            && TotalAssets(after) == TotalAssets(t)
            && IdleOf(after.funds) == IdleOf(t.funds) - f.contracts * LOT
            && after.week.contractsWritten == t.week.contractsWritten + f.contracts
            && Room(after, p) == Room(t, p) - f.contracts
  {
    RoomFits(t, p, f.contracts);
    var after := AfterFill(t, f);
    assert after.funds == t.funds.(assetBalance := Sub(t.funds.assetBalance, f.contracts * LOT));
    assert after.week.lockedCollateral == t.week.lockedCollateral + f.contracts * LOT;
    assert TotalAssets(after) == TotalAssets(t);
    RoomSpent(p, TotalAssets(t), t.week.contractsWritten, f.contracts);
  }

  lemma RoomSpent(p: Policy, totalAssets: nat, written: nat, n: nat)
    requires n <= Lifecycle.Capacity(p.maxUtilizationBps, p.maxContractsCap, totalAssets, written)
    ensures Lifecycle.Capacity(p.maxUtilizationBps, p.maxContractsCap, totalAssets, written + n)
         == Lifecycle.Capacity(p.maxUtilizationBps, p.maxContractsCap, totalAssets, written) - n
  {
  }

  // And a fill paid out of idle assets stays within the policy only if it was within capacity.
  lemma FitsExactlyIfWithin(t: Db, p: Policy, f: Fill)
    requires WithinPolicy(t, p) && f.contracts * LOT <= IdleOf(t.funds)
    ensures WithinPolicy(AfterFill(t, f), p) <==> f.contracts <= Room(t, p)
  {
    if f.contracts <= Room(t, p) {
      FillSpendsRoom(t, p, f);
    } else {
      var after := AfterFill(t, f);
      assert after.funds == t.funds.(assetBalance := Sub(t.funds.assetBalance, f.contracts * LOT));
      assert after.week.lockedCollateral == t.week.lockedCollateral + f.contracts * LOT;
      assert TotalAssets(after) == TotalAssets(t);
      TooMany(t.week.contractsWritten + f.contracts, TotalAssets(t) * p.maxUtilizationBps, p.maxContractsCap);
    }
  }

  lemma TooMany(n: nat, allowed: nat, cap: nat)
    requires n > allowed / BPS / LOT || n > cap
    ensures n * LOT * BPS > allowed || n > cap
  {
    DivBelow(allowed, BPS);
    DivBelow(allowed / BPS, LOT);
  }

  // ---------------------------------------------------------------- any sequence of fills

  // Whatever the fills and their order: total assets stand still, written plus capacity stands still,
  // utilization stays within the policy, and the keeper's figure is the index's.
  lemma {:induction false} FillsKeepPolicy(t: Db, p: Policy, fills: seq<Fill>)
    requires WithinPolicy(t, p) && EachFits(t, p, fills)
    ensures var after := AfterFills(t, fills);
            && WithinPolicy(after, p)
            && TotalAssets(after) == TotalAssets(t)
            && after.week.contractsWritten == t.week.contractsWritten + SizeOf(fills)
            && after.week.contractsWritten + Room(after, p) == t.week.contractsWritten + Room(t, p)
            && after.funds.reservedAssets == t.funds.reservedAssets
            && Room(after, p) == CapacityOf(TotalAssets(after), after.week.contractsWritten, p)
  {
    hide AfterFill, WithinPolicy, Room;
    if fills != [] {
      var n := |fills| - 1;
      FillsKeepPolicy(t, p, fills[..n]);
      FillSpendsRoom(AfterFills(t, fills[..n]), p, fills[n]);
      FillKeepsReserve(AfterFills(t, fills[..n]), fills[n]);
    }
    SameFigure(AfterFills(t, fills), p);
  }

  lemma FillKeepsReserve(t: Db, f: Fill)
    ensures AfterFill(t, f).funds.reservedAssets == t.funds.reservedAssets
  {
  }

  lemma SameFigure(t: Db, p: Policy)
    ensures Room(t, p) == CapacityOf(TotalAssets(t), t.week.contractsWritten, p)
  {
  }

  // Every fill fits in turn exactly when all of them together fit to begin with, in any order.
  lemma {:induction false} FitsExactly(t: Db, p: Policy, fills: seq<Fill>)
    requires WithinPolicy(t, p)
    ensures EachFits(t, p, fills) <==> SizeOf(fills) <= Room(t, p)
  {
    hide AfterFill, WithinPolicy, Room;
    if fills != [] {
      var earlier := fills[..|fills| - 1];
      FitsExactly(t, p, earlier);
      if EachFits(t, p, earlier) {
        FillsKeepPolicy(t, p, earlier);
      }
    }
  }

  // The order and the sizes of the fills do not matter: the same total leaves the same capacity.
  lemma PathIndependent(t: Db, p: Policy, some: seq<Fill>, others: seq<Fill>)
    requires WithinPolicy(t, p) && EachFits(t, p, some) && EachFits(t, p, others) && SizeOf(some) == SizeOf(others)
    ensures Room(AfterFills(t, some), p) == Room(AfterFills(t, others), p)
    ensures TotalAssets(AfterFills(t, some)) == TotalAssets(AfterFills(t, others))
  {
    FillsKeepPolicy(t, p, some);
    FillsKeepPolicy(t, p, others);
  }
}
