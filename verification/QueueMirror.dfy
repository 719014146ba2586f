// The redeem queue after every log of every legal run: each user row, each epoch row and the
// vault's own queue columns agree with the contract's books, and the shares queued in each epoch
// are conserved across users.
module QueueMirror {
  import opened Common
  import opened Sums
  import opened Lifecycle
  import opened Rows
  import opened Logs
  import opened Reducers
  import opened Chain
  import opened TableSums

  // ---------------------------------------------------------------- rows against books

  predicate SlotMirrors(u: User, q: Queue, a: Address) {
    if a in q.slots then u.queuedEpoch == Some(q.slots[a].epoch) && u.queuedShares == q.slots[a].shares
    else u.queuedEpoch == None && u.queuedShares == 0
  }

  predicate UserMirrors(u: User, q: Queue, a: Address) {
    && SlotMirrors(u, q, a)
    && u.strandWad == OwedTo(q, a).wad
    && u.strandGen == (if OwedTo(q, a).wad == 0 then None else Some(OwedTo(q, a).gen))
    && u.deferredUsdg <= OwedTo(q, a).usdg
  }

  ghost predicate UsersMirror(users: map<Address, User>, q: Queue) {
    forall a: Address :: UserMirrors(Get(users, a, BARE_USER), q, a)
  }

  predicate SettledMirrors(ep: Epoch, book: EpochBook) {
    && ep.settled && ep.sharesQueued == ep.sharesSettled
    && ep.sharesSettled == ep.sharesClaimed + book.shares
    && ep.assetsSettled == ep.assetsClaimed + book.assets
    && ep.usdgSettled == ep.usdgClaimed + book.usdg
    && ep.strandWad == ep.strandWadClaimed + book.wad
    && ep.strandGen == book.gen
  }

  predicate OpenMirrors(ep: Epoch, book: EpochBook) {
    && !ep.settled && ep.sharesQueued == book.shares
    && ep.sharesSettled == ep.assetsSettled == ep.usdgSettled == 0
    && ep.sharesClaimed == ep.assetsClaimed == ep.usdgClaimed == ep.strandWadClaimed == 0
    && book.assets == book.usdg == 0
    && ep.strandWad == book.wad && ep.strandGen == book.gen
  }

  ghost predicate EpochsMirror(epochs: map<nat, Epoch>, q: Queue) {
    && q.epoch >= 1
    && (forall e: nat :: e in q.settled <==> e in epochs && e != q.epoch)
    && (forall e: nat :: e in q.settled ==> e < q.epoch && SettledMirrors(epochs[e], q.settled[e]))
    && OpenMirrors(Get(epochs, q.epoch, BARE_EPOCH), q.open)
  }

  predicate SupplyMirrors(s: ShareColumns, q: Queue) {
    s.queuedShares == q.open.shares && s.epochId == q.epoch
  }

  // ---------------------------------------------------------------- conservation per epoch

  function QueuedIn(e: nat): User -> int {
    (u: User) => if u.queuedEpoch == Some(e) then u.queuedShares else 0
  }

  // What an epoch's owners still have queued in it.
  function HeldIn(q: Queue, e: nat): nat {
    if e == q.epoch then q.open.shares else if e in q.settled then q.settled[e].shares else 0
  }

  ghost predicate QueueSums(users: map<Address, User>, q: Queue) {
    forall e: nat :: Sum(users, QueuedIn(e)) == HeldIn(q, e)
  }

  ghost predicate QueueLaw(t: Db, g: Books) {
    && UsersMirror(t.users, g.queue) && EpochsMirror(t.epochs, g.queue)
    && SupplyMirrors(t.supply, g.queue) && QueueSums(t.users, g.queue)
  }

  // ---------------------------------------------------------------- the entry's share

  // The index computes an entry's strand share from settled-less-claimed columns exactly as the
  // contract computes it from what the epoch still holds, and never more than the epoch holds.
  lemma StakeAgrees(ep: Epoch, book: EpochBook, shares: nat)
    requires SettledMirrors(ep, book)
    ensures EntryShareOf(ep, shares) == StakeOf(book, shares) <= book.wad
  {
    if book.wad != 0 && book.gen != None && shares < book.shares {
      PartOfWhole(book.wad, shares, book.shares);
    }
  }

  // An entry never holds more shares than its epoch still has to settle.
  lemma SlotFits(t: Db, g: Books, owner: Address)
    requires QueueLaw(t, g) && owner in g.queue.slots
    ensures g.queue.slots[owner].shares <= HeldIn(g.queue, g.queue.slots[owner].epoch)
  {
    var slot := g.queue.slots[owner];
    assert UserMirrors(Get(t.users, owner, BARE_USER), g.queue, owner);
    if owner in t.users {
      forall a | a in t.users ensures QueuedIn(slot.epoch)(t.users[a]) >= 0 {
      }
      SumAtLeast(t.users, owner, QueuedIn(slot.epoch));
    }
  }

  // ---------------------------------------------------------------- preservation

  lemma OwnerRowKept(t: Db, g: Books, e: Emission, a: Address)
    requires UserMirrors(UserOf(t, a), g.queue, a)
    requires LegalLog(g, e.tx, e.entry, e.log) && OwnerOf(e.log) == Some(a) && !e.log.QueueEntrySettled?
    ensures UserMirrors(UserAfter(t, e.log, UserOf(t, a)), NextQueue(g.queue, e.log), a)
  {
  }

  lemma EntryRowKept(t: Db, q: Queue, a: Address, epochId: nat, shares: nat, assets: nat, usdg: nat)
    requires UserMirrors(UserOf(t, a), q, a) && LegalEntrySettled(q, a, epochId, shares, assets, usdg)
    requires SettledMirrors(EpochOf(t, epochId), q.settled[epochId])
    ensures UserMirrors(Unqueued(UserOf(t, a), EpochOf(t, epochId), shares), EntrySettled(q, a, epochId, shares, assets, usdg), a)
  {
    StakeAgrees(EpochOf(t, epochId), q.settled[epochId], shares);
  }

  lemma OtherRowKept(q: Queue, log: Log, u: User, a: Address)
    requires UserMirrors(u, q, a) && OwnerOf(log) != Some(a)
    ensures UserMirrors(u, NextQueue(q, log), a)
  {
  }

  // A share transfer leaves every queue column where it was.
  lemma TransferKeepsQueue(t: Db, log: Log, a: Address)
    requires log.Transfer?
    ensures var u, v := Get(t.users, a, BARE_USER), Get(UsersAfter(t, log), a, BARE_USER);
            v == u.(shares := v.shares)
  {
  }

  lemma UsersMirrorKept(t: Db, g: Books, e: Emission)
    requires QueueLaw(t, g) && Legal(g, e)
    ensures UsersMirror(UsersAfter(t, e.log), NextQueue(g.queue, e.log))
  {
    forall a: Address ensures UserMirrors(Get(UsersAfter(t, e.log), a, BARE_USER), NextQueue(g.queue, e.log), a) {
      assert UserMirrors(Get(t.users, a, BARE_USER), g.queue, a);
      if e.log.QueueEntrySettled? && e.log.owner == a {
        EntryRowKept(t, g.queue, a, e.log.epochId, e.log.shares, e.log.assets, e.log.usdg);
      } else if OwnerOf(e.log) == Some(a) {
        OwnerRowKept(t, g, e, a);
      } else {
        OtherRowKept(g.queue, e.log, Get(t.users, a, BARE_USER), a);
        if e.log.Transfer? {
          TransferKeepsQueue(t, e.log, a);
        }
      }
    }
  }

  predicate MovesEpochs(log: Log) {
    log.QueueRedeem? || log.EpochStrandShare? || log.QueueSettled? || log.QueueEntrySettled?
  }

  lemma EpochsStill(t: Db, q: Queue, tx: Hash, log: Log)
    requires !MovesEpochs(log)
    ensures EpochsAfter(t, tx, log) == t.epochs
    ensures SupplyAfter(t, log).queuedShares == t.supply.queuedShares && SupplyAfter(t, log).epochId == t.supply.epochId
    ensures var p := NextQueue(q, log); p.epoch == q.epoch && p.open == q.open && p.settled == q.settled && p.slots == q.slots
  {
  }

  lemma EntryKeepsEpochs(t: Db, q: Queue, owner: Address, epochId: nat, shares: nat, assets: nat, usdg: nat)
    requires EpochsMirror(t.epochs, q) && LegalEntrySettled(q, owner, epochId, shares, assets, usdg)
    requires shares <= q.settled[epochId].shares
    ensures EpochsMirror(t.epochs[epochId := Drawn(EpochOf(t, epochId), shares, assets, usdg)],
                         EntrySettled(q, owner, epochId, shares, assets, usdg))
  {
    StakeAgrees(t.epochs[epochId], q.settled[epochId], shares);
  }

  lemma EpochsMirrorKept(t: Db, g: Books, e: Emission)
    requires QueueLaw(t, g) && Legal(g, e)
    ensures EpochsMirror(EpochsAfter(t, e.tx, e.log), NextQueue(g.queue, e.log))
    ensures SupplyMirrors(SupplyAfter(t, e.log), NextQueue(g.queue, e.log))
  {
    if !MovesEpochs(e.log) {
      EpochsStill(t, g.queue, e.tx, e.log);
    } else if e.log.QueueEntrySettled? {
      SlotFits(t, g, e.log.owner);
      EntryKeepsEpochs(t, g.queue, e.log.owner, e.log.epochId, e.log.shares, e.log.assets, e.log.usdg);
    }
  }

  // ---------------------------------------------------------------- the sums

  lemma OwnerMovesSum(t: Db, g: Books, x: Emission, a: Address, e: nat)
    requires QueueLaw(t, g) && Legal(g, x) && OwnerOf(x.log) == Some(a)
    ensures Sum(UsersAfter(t, x.log), QueuedIn(e)) == HeldIn(NextQueue(g.queue, x.log), e)
  {
    hide LegalLog, UserAfter, NextQueue, HeldIn, UserMirrors, EpochsMirror, QueuedIn, Sum;
    assert UserMirrors(Get(t.users, a, BARE_USER), g.queue, a);
    assert Sum(t.users, QueuedIn(e)) == HeldIn(g.queue, e);
    BareHoldsNothing(e);
    SumPut(t.users, a, UserAfter(t, x.log, UserOf(t, a)), BARE_USER, QueuedIn(e));
    if x.log.QueueEntrySettled? {
      EntryMovesHeld(t, g, x, e);
    } else if x.log.QueueRedeem? {
      RedeemMovesHeld(t, g, x, e);
    } else {
      OwnerKeepsHeld(t, g.queue, x, a, e);
    }
  }

  lemma BareHoldsNothing(e: nat)
    ensures QueuedIn(e)(BARE_USER) == 0
  {
  }

  // Settling an entry takes its shares out of its epoch, on both sides.
  lemma EntryMovesHeld(t: Db, g: Books, x: Emission, e: nat)
    requires QueueLaw(t, g) && Legal(g, x) && x.log.QueueEntrySettled?
    ensures var u := UserOf(t, x.log.owner);
            QueuedIn(e)(UserAfter(t, x.log, u)) - QueuedIn(e)(u) == HeldIn(NextQueue(g.queue, x.log), e) - HeldIn(g.queue, e)
  {
    hide StakeOf, EntryShareOf;
    SlotFits(t, g, x.log.owner);
    assert UserMirrors(Get(t.users, x.log.owner, BARE_USER), g.queue, x.log.owner);
  }

  // Queueing adds them to the open one, on both sides.
  lemma RedeemMovesHeld(t: Db, g: Books, x: Emission, e: nat)
    requires QueueLaw(t, g) && Legal(g, x) && x.log.QueueRedeem?
    ensures var u := UserOf(t, x.log.owner);
            QueuedIn(e)(UserAfter(t, x.log, u)) - QueuedIn(e)(u) == HeldIn(NextQueue(g.queue, x.log), e) - HeldIn(g.queue, e)
  {
    assert UserMirrors(Get(t.users, x.log.owner, BARE_USER), g.queue, x.log.owner);
  }

  lemma OwnerKeepsHeld(t: Db, q: Queue, x: Emission, a: Address, e: nat)
    requires OwnerOf(x.log) == Some(a) && !x.log.QueueEntrySettled? && !x.log.QueueRedeem?
    ensures QueuedIn(e)(UserAfter(t, x.log, UserOf(t, a))) == QueuedIn(e)(UserOf(t, a))
    ensures HeldIn(NextQueue(q, x.log), e) == HeldIn(q, e)
  {
    EpochsStill(t, q, x.tx, x.log);
  }

  // A settlement moves the open epoch's shares to its settled book, and a strand share moves none.
  lemma SettlementKeepsHeld(g: Books, x: Emission, e: nat)
    requires Legal(g, x) && (x.log.QueueSettled? || x.log.EpochStrandShare?) && g.queue.epoch + 1 !in g.queue.settled
    ensures HeldIn(NextQueue(g.queue, x.log), e) == HeldIn(g.queue, e)
  {
  }

  lemma StillHeld(t: Db, q: Queue, x: Emission, e: nat)
    requires !MovesEpochs(x.log)
    ensures HeldIn(NextQueue(q, x.log), e) == HeldIn(q, e)
  {
    EpochsStill(t, q, x.tx, x.log);
  }

  lemma TransferKeepsHeld(t: Db, log: Log, e: nat)
    requires log.Transfer? && log.value != 0
    ensures Sum(UsersAfter(t, log), QueuedIn(e)) == Sum(t.users, QueuedIn(e))
  {
    TransferMovesColumn(t, log, QueuedIn(e));
  }

  lemma QueueSumsKept(t: Db, g: Books, x: Emission)
    requires QueueLaw(t, g) && Legal(g, x)
    ensures QueueSums(UsersAfter(t, x.log), NextQueue(g.queue, x.log))
  {
    hide LegalLog, UserAfter, NextQueue, HeldIn, QueuedIn, UserMirrors, Sum;
    forall e: nat ensures Sum(UsersAfter(t, x.log), QueuedIn(e)) == HeldIn(NextQueue(g.queue, x.log), e) {
      assert Sum(t.users, QueuedIn(e)) == HeldIn(g.queue, e);
      match OwnerOf(x.log)
      case Some(a) => OwnerMovesSum(t, g, x, a, e);
      case None =>
        if x.log.Transfer? && x.log.value != 0 {
          TransferKeepsHeld(t, x.log, e);
        }
        if MovesEpochs(x.log) {
          SettlementKeepsHeld(g, x, e);
        } else {
          StillHeld(t, g.queue, x, e);
        }
    }
  }

  lemma QueueKept(t: Db, g: Books, e: Emission)
    requires QueueLaw(t, g) && Legal(g, e)
    ensures QueueLaw(Reduce(t, e.tx, e.log), Next(g, e))
  {
    UsersMirrorKept(t, g, e);
    EpochsMirrorKept(t, g, e);
    QueueSumsKept(t, g, e);
  }
}
