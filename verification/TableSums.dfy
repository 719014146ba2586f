// How the two logs that write two rows of one table move that table's column totals.
module TableSums {
  import opened Common
  import opened Sums
  import opened Rows
  import opened Logs
  import opened Reducers

  lemma TransferMovesColumn(t: Db, log: Log, column: User -> int)
    requires log.Transfer? && log.value != 0 && column(BARE_USER) == 0
    ensures var mid := Debited(t.users, log.from, log.value);
            var after := UsersAfter(t, log);
            Sum(after, column) == Sum(t.users, column)
              + (if log.from.Account? then column(mid[log.from]) - column(UserOf(t, log.from)) else 0)
              + (if log.to.Account? then column(after[log.to]) - column(Get(mid, log.to, BARE_USER)) else 0)
  {
    var mid := Debited(t.users, log.from, log.value);
    if log.from.Account? {
      SumPut(t.users, log.from, mid[log.from], BARE_USER, column);
    }
    if log.to.Account? {
      SumPut(mid, log.to, UsersAfter(t, log)[log.to], BARE_USER, column);
    }
  }

  // The settlement also opens the next epoch's row, which counts for nothing.
  lemma SettlementMovesColumn(t: Db, tx: Hash, log: Log, column: Epoch -> int)
    requires log.QueueSettled? && column(BARE_EPOCH) == 0
    ensures var after := EpochsAfter(t, tx, log);
            Sum(after, column) == Sum(t.epochs, column) - column(EpochOf(t, log.epochId)) + column(after[log.epochId])
  {
    var id := log.epochId;
    var after := EpochsAfter(t, tx, log);
    var first := t.epochs[id := after[id]];
    SumPut(t.epochs, id, after[id], BARE_EPOCH, column);
    SumPut(first, id + 1, after[id + 1], BARE_EPOCH, column);
    assert after == first[id + 1 := after[id + 1]];
  }
}
