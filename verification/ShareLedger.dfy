// Shares and lifetime totals: after every log of every legal run, user balances mirror the
// contract's, they add up with the escrow to the published supply, and the two lifetime figures
// kept on the vault row are the sums of the rows they summarise.
module ShareLedger {
  import opened Common
  import opened Sums
  import opened Rows
  import opened Logs
  import opened Reducers
  import opened Chain
  import opened QueueMirror
  import opened TableSums

  function SharesOf(): User -> int { (u: User) => u.shares }

  function HaircutOf(): User -> int { (u: User) => u.haircutAssets }

  function ClaimedOf(): User -> int { (u: User) => u.claimedUsdg }

  function EscrowTaken(): Epoch -> int { (ep: Epoch) => ep.usdgSettled }

  // user.shares mirrors balanceOf; the vault's own balance is escrow and never a user row.
  ghost predicate SharesMirror(users: map<Address, User>, k: Tokens) {
    forall a: Address :: Get(users, a, BARE_USER).shares == if a.Account? then BalanceOf(k, a) else 0
  }

  ghost predicate ShareTotals(f: FundColumns, s: ShareColumns, users: map<Address, User>, epochs: map<nat, Epoch>, k: Tokens) {
    && f.assetBalance == k.assets && f.usdgBalance == k.usdg
    && s.totalShares == Sum(users, SharesOf()) + k.vaultShares
    && f.lifetimeHaircutAssets == Sum(users, HaircutOf())
    && f.totalUsdgClaimed == Sum(users, ClaimedOf()) + Sum(epochs, EscrowTaken())
  }

  ghost predicate ShareLaw(t: Db, g: Books) {
    SharesMirror(t.users, g.tokens) && ShareTotals(t.funds, t.supply, t.users, t.epochs, g.tokens)
  }

  // No holder can have more than the published supply.
  lemma BalanceFits(t: Db, g: Books, a: Address)
    requires ShareLaw(t, g)
    ensures BalanceOf(g.tokens, a) <= t.supply.totalShares
  {
    assert Get(t.users, a, BARE_USER).shares == if a.Account? then BalanceOf(g.tokens, a) else 0;
    SumNonNegative(t.users, SharesOf());
    if a in t.users {
      SumAtLeast(t.users, a, SharesOf());
    }
  }

  lemma TransferKeepsMirror(t: Db, g: Books, e: Emission)
    requires SharesMirror(t.users, g.tokens) && Legal(g, e) && e.log.Transfer?
    ensures SharesMirror(UsersAfter(t, e.log), NextTokens(g.tokens, e.log))
  {
    var from, to, value := e.log.from, e.log.to, e.log.value;
    var mid, k := Debited(t.users, from, value), Debit(g.tokens, from, value);
    assert Get(t.users, from, BARE_USER).shares == if from.Account? then BalanceOf(g.tokens, from) else 0;
    if value == 0 {
      NothingMoved(g.tokens, from, to);
    } else {
      assert SharesMirror(mid, k);
      assert Get(mid, to, BARE_USER).shares == if to.Account? then BalanceOf(k, to) else 0;
    }
  }

  lemma TransferKeepsSupply(t: Db, g: Books, e: Emission)
    requires ShareLaw(t, g) && Legal(g, e) && e.log.Transfer?
    ensures SupplyAfter(t, e.log).totalShares == Sum(UsersAfter(t, e.log), SharesOf()) + NextTokens(g.tokens, e.log).vaultShares
  {
    var from, to, value := e.log.from, e.log.to, e.log.value;
    assert Get(t.users, from, BARE_USER).shares == if from.Account? then BalanceOf(g.tokens, from) else 0;
    if value != 0 {
      TransferMovesColumn(t, e.log, SharesOf());
      BalanceFits(t, g, from);
    } else {
      NothingMoved(g.tokens, from, to);
    }
  }

  // A transfer of nothing leaves every balance as it was, whether or not it names a new holder.
  lemma NothingMoved(k: Tokens, from: Address, to: Address)
    ensures var n := Credit(Debit(k, from, 0), to, 0);
            n.vaultShares == k.vaultShares && forall a: Address :: BalanceOf(n, a) == BalanceOf(k, a)
  {
  }

  lemma TransferKeepsTotals(t: Db, log: Log)
    requires log.Transfer?
    ensures Sum(UsersAfter(t, log), HaircutOf()) == Sum(t.users, HaircutOf())
    ensures Sum(UsersAfter(t, log), ClaimedOf()) == Sum(t.users, ClaimedOf())
  {
    if log.value != 0 {
      TransferMovesColumn(t, log, HaircutOf());
      TransferMovesColumn(t, log, ClaimedOf());
    }
  }

  // What a single-owner log does to the three summed columns of that owner's row.
  lemma OwnerColumns(t: Db, g: Books, e: Emission, u: User)
    requires Legal(g, e) && OwnerOf(e.log).Some?
    ensures var v := UserAfter(t, e.log, u);
            && v.shares == u.shares
            && v.haircutAssets - u.haircutAssets == FundsAfter(t, e.log).lifetimeHaircutAssets - t.funds.lifetimeHaircutAssets
            && v.claimedUsdg - u.claimedUsdg == FundsAfter(t, e.log).totalUsdgClaimed - t.funds.totalUsdgClaimed
  {
  }

  lemma OwnerKeepsMirror(t: Db, g: Books, e: Emission, a: Address)
    requires SharesMirror(t.users, g.tokens) && Legal(g, e) && OwnerOf(e.log) == Some(a)
    ensures SharesMirror(UsersAfter(t, e.log), g.tokens)
  {
    var u := UserAfter(t, e.log, UserOf(t, a));
    OwnerColumns(t, g, e, UserOf(t, a));
    assert Get(t.users, a, BARE_USER).shares == if a.Account? then BalanceOf(g.tokens, a) else 0;
    assert UsersAfter(t, e.log) == t.users[a := u];
  }

  lemma OwnerMovesTotals(t: Db, g: Books, e: Emission, a: Address)
    requires Legal(g, e) && OwnerOf(e.log) == Some(a)
    ensures Sum(UsersAfter(t, e.log), SharesOf()) == Sum(t.users, SharesOf())
    ensures Sum(UsersAfter(t, e.log), HaircutOf()) - Sum(t.users, HaircutOf())
         == FundsAfter(t, e.log).lifetimeHaircutAssets - t.funds.lifetimeHaircutAssets
    ensures Sum(UsersAfter(t, e.log), ClaimedOf()) - Sum(t.users, ClaimedOf())
         == FundsAfter(t, e.log).totalUsdgClaimed - t.funds.totalUsdgClaimed
  {
    var u := UserAfter(t, e.log, UserOf(t, a));
    OwnerColumns(t, g, e, UserOf(t, a));
    assert UsersAfter(t, e.log) == t.users[a := u];
    SumPut(t.users, a, u, BARE_USER, SharesOf());
    SumPut(t.users, a, u, BARE_USER, HaircutOf());
    SumPut(t.users, a, u, BARE_USER, ClaimedOf());
  }

  lemma EscrowTakenMoves(t: Db, g: Books, e: Emission)
    requires QueueLaw(t, g) && Legal(g, e) && OwnerOf(e.log) == None
    ensures Sum(EpochsAfter(t, e.tx, e.log), EscrowTaken()) - Sum(t.epochs, EscrowTaken())
         == FundsAfter(t, e.log).totalUsdgClaimed - t.funds.totalUsdgClaimed
  {
    if e.log.QueueSettled? {
      SettlementMovesColumn(t, e.tx, e.log, EscrowTaken());
    } else if e.log.EpochStrandShare? {
      SumPut(t.epochs, e.log.epochId, EpochsAfter(t, e.tx, e.log)[e.log.epochId], BARE_EPOCH, EscrowTaken());
    }
  }

  // A queue log's owner draws on escrow the settlement already counted.
  lemma OwnerTakesNoEscrow(t: Db, e: Emission)
    requires OwnerOf(e.log).Some?
    ensures Sum(EpochsAfter(t, e.tx, e.log), EscrowTaken()) == Sum(t.epochs, EscrowTaken())
  {
    if e.log.QueueRedeem? || e.log.QueueEntrySettled? {
      SumPut(t.epochs, e.log.epochId, EpochsAfter(t, e.tx, e.log)[e.log.epochId], BARE_EPOCH, EscrowTaken());
    }
  }

  lemma BalancesKept(t: Db, g: Books, e: Emission)
    requires t.funds.assetBalance == g.tokens.assets && t.funds.usdgBalance == g.tokens.usdg
    ensures var f, k := FundsAfter(t, e.log), NextTokens(g.tokens, e.log);
            f.assetBalance == k.assets && f.usdgBalance == k.usdg
  {
  }

  lemma UnownedKeepsTotals(t: Db, log: Log)
    requires OwnerOf(log) == None
    ensures FundsAfter(t, log).lifetimeHaircutAssets == t.funds.lifetimeHaircutAssets
    ensures Sum(UsersAfter(t, log), HaircutOf()) == Sum(t.users, HaircutOf())
    ensures Sum(UsersAfter(t, log), ClaimedOf()) == Sum(t.users, ClaimedOf())
  {
    if log.Transfer? {
      TransferKeepsTotals(t, log);
    }
  }

  lemma TokensStill(t: Db, k: Tokens, log: Log)
    requires !log.Transfer?
    ensures var n := NextTokens(k, log); n.vaultShares == k.vaultShares && n.shares == k.shares
    ensures SupplyAfter(t, log).totalShares == t.supply.totalShares
    ensures OwnerOf(log) == None ==> UsersAfter(t, log) == t.users
  {
  }

  lemma SharesMirrorKept(t: Db, g: Books, e: Emission)
    requires ShareLaw(t, g) && Legal(g, e)
    ensures SharesMirror(UsersAfter(t, e.log), NextTokens(g.tokens, e.log))
    ensures SupplyAfter(t, e.log).totalShares == Sum(UsersAfter(t, e.log), SharesOf()) + NextTokens(g.tokens, e.log).vaultShares
  {
    if e.log.Transfer? {
      TransferKeepsMirror(t, g, e);
      TransferKeepsSupply(t, g, e);
    } else {
      TokensStill(t, g.tokens, e.log);
      if OwnerOf(e.log).Some? {
        OwnerKeepsMirror(t, g, e, OwnerOf(e.log).value);
        OwnerMovesTotals(t, g, e, OwnerOf(e.log).value);
      }
    }
  }

  lemma ShareKept(t: Db, g: Books, e: Emission)
    requires QueueLaw(t, g) && ShareLaw(t, g) && Legal(g, e)
    ensures ShareLaw(Reduce(t, e.tx, e.log), Next(g, e))
  {
    SharesMirrorKept(t, g, e);
    BalancesKept(t, g, e);
    if OwnerOf(e.log).Some? {
      OwnerTakesNoEscrow(t, e);
      OwnerMovesTotals(t, g, e, OwnerOf(e.log).value);
    } else {
      EscrowTakenMoves(t, g, e);
      UnownedKeepsTotals(t, e.log);
    }
  }
}
