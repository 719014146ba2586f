// The contracts' side, as far as the handlers' comments state it: the books the vault keeps on
// chain, which log it may emit next (Legal) and what its books are afterwards (Next). The
// contracts themselves are not part of this model; nothing here looks at the index.
//
// One entry point's logs arrive one after another, so the books carry what the entry point in
// progress still owes the tape (Pending); entry points may be batched freely in one transaction.
module Chain {
  import opened Common
  import opened Lifecycle
  import opened Logs

  // Which entry point emitted a log. No log says so; the index has to infer it.
  datatype Entry = FromRollClose | FromDeposit | FromSettleQueue | FromRetry | Elsewhere

  datatype Emission = Emission(tx: Hash, entry: Entry, log: Log)

  datatype Pending =
    | Rest
    | Wrote(unsold: nat)                                     // clear.write done, CallsWritten next
    | Filling(unsold: nat)                                   // CallsWritten done, OrderFulfilled or another write next
    | Redeeming(assets: nat, usdg: nat)                      // Clear redeemed, the vault's ClaimRedeemed next
    | Redeemed(assets: nat, usdg: nat, written: nat)         // RollClose or StrandedClaimRecovered next
    | Stranding                                              // ClaimStranded done, RollClose next
    | Closing(usdg: nat)                                     // RollClose done, its Harvest next
    | Recovered(live: nat)                                   // StrandedClaimRecovered done, its Harvest next
    | TookShare                                              // EpochStrandShare done, QueueSettled next

  datatype Machine = Machine(
    phase: Phase,
    cycle: nat,
    option: Option<nat>,
    claim: Option<nat>,
    written: nat,
    collateral: nat,
    listing: Option<Hash>,
    gen: nat,
    resolved: nat,
    remainingWad: nat,
    pending: Pending)
  {
    predicate Stranded() { gen != resolved }

    predicate Live() { phase == Phase.Listed || phase == Phase.Exercisable }
  }

  datatype Order = Order(cycle: nat, amount: nat, unitPrice: nat, filled: nat)

  datatype Tokens = Tokens(assets: nat, usdg: nat, vaultShares: nat, shares: map<Address, nat>)

  // What an epoch still holds for its owners. While it is open that is only the shares queued so far.
  datatype EpochBook = EpochBook(shares: nat, assets: nat, usdg: nat, wad: nat, gen: Option<nat>)

  datatype Slot = Slot(epoch: nat, shares: nat)

  // What a recovered strand still holds for owners whose share is not yet an owed balance.
  datatype StrandBook = StrandBook(wad: nat, assets: nat, usdg: nat)

  datatype Owed = Owed(assets: nat, usdg: nat, wad: nat, gen: nat)

  datatype Queue = Queue(
    epoch: nat,
    open: EpochBook,
    settled: map<nat, EpochBook>,
    slots: map<Address, Slot>,
    strands: map<nat, StrandBook>,
    owed: map<Address, Owed>)

  datatype Txs = Txs(tx: Option<Hash>, seen: set<Hash>, closeTx: Option<Hash>, retryTx: Option<Hash>, live: nat)

  // What really happened, for the ambiguous events, and what a wrong reading of them costs each week.
  datatype Truth = Truth(
    origins: seq<HarvestOrigin>,       // the entry point of each Harvest so far
    ambiguous: set<nat>,               // checkpoints batched after a retry in its transaction
    settledIn: map<nat, Option<nat>>,  // the cycle each epoch settled in, None for a flat settleQueue
    misdated: set<nat>,                // epochs settled flat in the transaction of a rollClose
    leaks: map<nat, nat>,              // per week, premium of ambiguous checkpoints that reads as strike proceeds
    clamps: map<nat, nat>)             // per week, fee of ambiguous checkpoints larger than the premium left

  datatype Books = Books(machine: Machine, orders: map<Hash, Order>, tokens: Tokens, queue: Queue, txs: Txs, truth: Truth)

  const NO_BOOK := EpochBook(0, 0, 0, 0, None)
  const NOTHING_OWED := Owed(0, 0, 0, 0)

  const GENESIS := Books(
    Machine(Phase.Idle, 0, None, None, 0, 0, None, 0, 0, 0, Rest),
    map[],
    Tokens(0, 0, 0, map[]),
    Queue(1, NO_BOOK, map[], map[], map[], map[]),
    Txs(None, {}, None, None, 0),
    Truth([], {}, map[], {}, map[], map[]))

  function OwedTo(q: Queue, a: Address): Owed { Get(q.owed, a, NOTHING_OWED) }

  function BalanceOf(k: Tokens, a: Address): nat {
    if a == Vault then k.vaultShares else if a == Zero then 0 else Get(k.shares, a, 0)
  }

  function OriginBy(entry: Entry): HarvestOrigin {
    match entry
    case FromRollClose => HarvestOrigin.RollClose
    case FromRetry => HarvestOrigin.Retry
    case _ => HarvestOrigin.Checkpoint
  }

  // One transaction's logs are contiguous, an entry point never spans two, and a hash never returns.
  predicate SameOrFreshTx(g: Books, tx: Hash) {
    g.txs.tx == Some(tx) || (tx !in g.txs.seen && g.machine.pending == Rest)
  }

  // ---------------------------------------------------------------- which log may come next

  predicate LegalTransfer(k: Tokens, from: Address, to: Address, value: nat) {
    (from != Zero || to != Zero) && (from == Zero || value <= BalanceOf(k, from))
  }

  predicate LegalEntrySettled(q: Queue, owner: Address, epochId: nat, shares: nat, assets: nat, usdg: nat) {
    && owner in q.slots && q.slots[owner] == Slot(epochId, shares)
    && epochId in q.settled
    && assets <= q.settled[epochId].assets && usdg <= q.settled[epochId].usdg
    // A share of another generation was folded one log earlier, so the owner holds at most one.
    && (StakeOf(q.settled[epochId], shares) == 0 || OwedTo(q, owner).wad == 0
        || q.settled[epochId].gen == Some(OwedTo(q, owner).gen))
  }

  predicate LegalHarvest(g: Books, entry: Entry, cycleNumber: nat, gross: nat, fee: nat, net: nat) {
    && cycleNumber == g.machine.cycle
    && net == gross - fee
    && match entry
       case FromRollClose => g.machine.pending.Closing? && fee + g.machine.pending.usdg <= gross
       case FromRetry => g.machine.pending.Recovered? && fee + g.machine.pending.live <= gross
       case FromDeposit => g.machine.pending == Rest && 0 < gross && fee <= gross
                           && !g.machine.Stranded() && (g.machine.phase == Phase.Idle || g.machine.phase == Phase.Listed)
       case FromSettleQueue => g.machine.pending == Rest && 0 < gross && fee <= gross && g.machine.phase == Phase.Idle
       case Elsewhere => false
  }

  predicate LegalRollClose(m: Machine, cycleNumber: nat, assets: nat, usdg: nat, assignedCount: nat) {
    && m.Live() && m.listing == None && cycleNumber == m.cycle
    && match m.pending
       case Redeemed(u, e, written) => assets == u && usdg == e && assignedCount <= written
       case Stranding => assets == 0 && usdg == 0 && assignedCount <= m.written
       case Rest => m.claim == None && assets == 0 && usdg == 0 && assignedCount == 0
       case _ => false
  }

  predicate LegalFill(g: Books, orderHash: Hash, contracts: nat, paid: nat) {
    && g.machine.pending.Filling? && 0 < contracts <= g.machine.pending.unsold
    && g.machine.listing == Some(orderHash)
    && orderHash in g.orders
    && g.orders[orderHash].filled + contracts <= g.orders[orderHash].amount
    && paid == g.orders[orderHash].unitPrice * contracts
  }

  predicate LegalLog(g: Books, tx: Hash, entry: Entry, log: Log) {
    var m, q, k := g.machine, g.queue, g.tokens;
    match log
    case AssetIn(_) => true
    case AssetOut(amount) => amount <= k.assets
    case UsdgIn(_) => true
    case UsdgOut(amount) => amount <= k.usdg
    case Transfer(from, to, value) => LegalTransfer(k, from, to, value)
    case Deposit(_, _) => m.pending == Rest && !m.Stranded() && (m.phase == Phase.Idle || m.phase == Phase.Listed)
    case Withdraw(_, _) => m.pending == Rest && !m.Stranded() && m.phase == Phase.Idle
    case QueueRedeem(owner, _, epochId) =>
      m.pending == Rest && epochId == q.epoch && (owner in q.slots ==> q.slots[owner].epoch == epochId)
    case EpochStrandShare(epochId, gen, wad) =>
      m.pending == Rest && m.phase == Phase.Idle && m.Stranded() && epochId == q.epoch && gen == m.gen && wad <= m.remainingWad
    case QueueSettled(epochId, shares, _, _) =>
      && epochId == q.epoch && shares == q.open.shares && m.phase == Phase.Idle
      && m.pending == (if m.Stranded() then TookShare else Rest)
      && (entry == FromSettleQueue || (entry == FromRollClose && g.txs.closeTx == Some(tx)))
    case QueueEntrySettled(owner, epochId, shares, assets, usdg) =>
      m.pending == Rest && LegalEntrySettled(q, owner, epochId, shares, assets, usdg)
    case StrandShareSettled(owner, gen, wad, assets, usdg) =>
      && m.pending == Rest && 0 < wad && OwedTo(q, owner).wad == wad && OwedTo(q, owner).gen == gen
      && gen in q.strands && assets <= q.strands[gen].assets && usdg <= q.strands[gen].usdg
    case ReserveHaircut(owner, booked, paid) => m.pending == Rest && booked == OwedTo(q, owner).assets && paid <= booked
    case UsdgLegDeferred(owner, usdg) => m.pending == Rest && usdg == OwedTo(q, owner).usdg
    case CompleteRedeem(owner, assets, usdg) =>
      m.pending == Rest && assets == OwedTo(q, owner).assets && (usdg == 0 || usdg == OwedTo(q, owner).usdg)
    case ClaimUsdg(_, _) => m.pending == Rest
    case RollOpen(cycleNumber, _, _, _) =>
      m.pending == Rest && m.phase == Phase.Idle && !m.Stranded() && cycleNumber == m.cycle + 1
    case CallsWritten(optionId, claimKey, contracts, collateral) =>
      m.pending.Wrote? && m.option == Some(optionId) && m.claim == Some(claimKey) && 0 < contracts && collateral == contracts * LOT
    case BookLocked(cycleNumber) => m.pending == Rest && m.phase == Phase.Listed && m.listing == None && cycleNumber == m.cycle
    case ClaimStranded(cycleNumber, claimKey, gen) =>
      && m.pending == Rest && m.Live() && m.listing == None
      && cycleNumber == m.cycle && m.claim == Some(claimKey) && gen == m.gen + 1
    case RollClose(cycleNumber, assets, usdg, assignedCount) => LegalRollClose(m, cycleNumber, assets, usdg, assignedCount)
    case ClaimRedeemed(claimKey, assets, usdg) => m.claim == Some(claimKey) && m.pending == Redeeming(assets, usdg)
    case StrandedClaimRecovered(gen, assets, usdg, queueWad) =>
      && m.phase == Phase.Idle && m.Stranded() && m.pending.Redeemed?
      && assets == m.pending.assets && usdg == m.pending.usdg && gen == m.gen && queueWad == WAD - m.remainingWad
    case Harvest(cycleNumber, gross, fee, net) => LegalHarvest(g, entry, cycleNumber, gross, fee, net)
    case ListingApproved(orderHash, amount, gross, _) =>
      && m.pending == Rest && m.phase == Phase.Listed && m.listing == None
      && orderHash !in g.orders && 0 < amount && gross % amount == 0
    case ListingCancelled(orderHash) => m.pending == Rest && m.listing == Some(orderHash)
    case AllListingsInvalidated(_) => m.pending == Rest && m.listing == None
    case OrderFulfilled(orderHash, offerer, offer, consideration) =>
      offerer == Vault ==> LegalFill(g, orderHash, Contracts(offer), ToVault(consideration))
    case OrderCancelled(_) => true
    case CounterIncremented(_) => true
    case UsdgDistributed(_, _) => true
    case UsdgUnallocated(_) => true
    case OptionsWritten(optionId, claimId) =>
      && (m.pending == Rest || m.pending.Filling?) && m.phase == Phase.Listed && m.option == Some(optionId)
      && (m.claim == None || m.claim == Some(claimId))
    case BucketWrittenInto(_, _) => true
    case BucketAssignedExercise(_, _, _) => true
    case ClearClaimRedeemed(_, _) =>
      m.pending == Rest && m.claim.Some? && ((m.Live() && m.listing == None) || m.phase == Phase.Idle)
  }

  predicate Legal(g: Books, e: Emission) {
    SameOrFreshTx(g, e.tx) && LegalLog(g, e.tx, e.entry, e.log)
  }

  // ---------------------------------------------------------------- the books afterwards

  // The part of an epoch's strand share one entry takes: pro rata of what is left, the last entry the rest.
  function StakeOf(book: EpochBook, shares: nat): nat {
    if book.wad == 0 || book.gen == None then 0
    else if shares >= book.shares then book.wad
    else book.wad * shares / book.shares
  }

  // What epochs own of one leg of a redeemed claim, floored, and what is left for live shares.
  function QueueCut(x: nat, queueWad: nat): nat { x * queueWad / 1_000_000_000_000_000_000 }

  function LiveCut(x: nat, queueWad: nat): nat { Sub(x, QueueCut(x, queueWad)) }

  function Debit(k: Tokens, a: Address, value: nat): Tokens {
    match a
    case Zero => k
    case Vault => k.(vaultShares := Sub(k.vaultShares, value))
    case Account(_) => k.(shares := k.shares[a := Sub(BalanceOf(k, a), value)])
  }

  function Credit(k: Tokens, a: Address, value: nat): Tokens {
    match a
    case Zero => k
    case Vault => k.(vaultShares := k.vaultShares + value)
    case Account(_) => k.(shares := k.shares[a := BalanceOf(k, a) + value])
  }

  // The contracts the vault has written and Seaport has not reported sold yet, in this transaction.
  function Unsold(m: Machine): nat {
    match m.pending
    case Wrote(unsold) => unsold
    case Filling(unsold) => unsold
    case _ => 0
  }

  function NextMachine(m: Machine, log: Log): Machine {
    match log
    case EpochStrandShare(_, _, wad) => m.(remainingWad := Sub(m.remainingWad, wad), pending := TookShare)
    case QueueSettled(_, _, _, _) => m.(pending := Rest)
    case RollOpen(cycleNumber, optionId, _, _) => m.(phase := Phase.Listed, cycle := cycleNumber, option := Some(optionId))
    case CallsWritten(_, _, contracts, collateral) =>
      m.(written := m.written + contracts, collateral := m.collateral + collateral, pending := Filling(Unsold(m) + contracts))
    case BookLocked(_) => m.(phase := Phase.Exercisable)
    case ClaimStranded(_, _, gen) => m.(gen := gen, remainingWad := WAD, pending := Stranding)
    case RollClose(_, _, usdg, _) =>
      m.(phase := Phase.Settling, option := if m.Stranded() then m.option else None, pending := Closing(usdg))
    case ClaimRedeemed(_, assets, usdg) =>
      m.(claim := None, option := None, written := 0, collateral := 0, pending := Redeemed(assets, usdg, m.written))
    case StrandedClaimRecovered(gen, assets, usdg, queueWad) =>
      m.(resolved := gen, remainingWad := 0, pending := Recovered(LiveCut(usdg, queueWad)))
    case Harvest(_, _, _, _) =>
      m.(phase := if m.pending.Closing? then Phase.Idle else m.phase, pending := Rest)
    case ListingApproved(orderHash, _, _, _) => m.(listing := Some(orderHash))
    case ListingCancelled(_) => m.(listing := None)
    case OrderFulfilled(_, offerer, offer, _) =>
      if offerer != Vault then m
      else m.(pending := if Unsold(m) > Contracts(offer) then Filling(Unsold(m) - Contracts(offer)) else Rest)
    case OptionsWritten(_, claimId) => m.(claim := Some(claimId), pending := Wrote(Unsold(m)))
    case ClearClaimRedeemed(assets, usdg) => m.(pending := Redeeming(assets, usdg))
    case _ => m
  }

  function NextOrders(g: Books, log: Log): map<Hash, Order> {
    match log
    case ListingApproved(orderHash, amount, gross, _) =>
      g.orders[orderHash := Order(g.machine.cycle, amount, SafeDiv(gross, amount), 0)]
    case OrderFulfilled(orderHash, offerer, offer, _) =>
      if offerer == Vault && orderHash in g.orders
      then g.orders[orderHash := g.orders[orderHash].(filled := g.orders[orderHash].filled + Contracts(offer))]
      else g.orders
    case _ => g.orders
  }

  function NextTokens(k: Tokens, log: Log): Tokens {
    match log
    case AssetIn(amount) => k.(assets := k.assets + amount)
    case AssetOut(amount) => k.(assets := Sub(k.assets, amount))
    case UsdgIn(amount) => k.(usdg := k.usdg + amount)
    case UsdgOut(amount) => k.(usdg := Sub(k.usdg, amount))
    case Transfer(from, to, value) => Credit(Debit(k, from, value), to, value)
    case _ => k
  }

  function EntrySettled(q: Queue, owner: Address, epochId: nat, shares: nat, assets: nat, usdg: nat): Queue {
    var book := Get(q.settled, epochId, NO_BOOK);
    var stake := StakeOf(book, shares);
    var o := OwedTo(q, owner);
    q.(slots := q.slots - {owner},
       settled := q.settled[epochId := book.(
         shares := Sub(book.shares, shares),
         assets := Sub(book.assets, assets),
         usdg := Sub(book.usdg, usdg),
         wad := Sub(book.wad, stake))],
       owed := q.owed[owner := Owed(o.assets + assets, o.usdg + usdg, o.wad + stake,
                                    if stake == 0 || book.gen == None then o.gen else book.gen.value)])
  }

  function NextQueue(q: Queue, log: Log): Queue {
    match log
    case QueueRedeem(owner, shares, epochId) =>
      var held := if owner in q.slots then q.slots[owner].shares else 0;
      q.(slots := q.slots[owner := Slot(epochId, held + shares)], open := q.open.(shares := q.open.shares + shares))
    case EpochStrandShare(_, gen, wad) => q.(open := q.open.(wad := wad, gen := Some(gen)))
    case QueueSettled(epochId, _, assets, usdg) =>
      q.(settled := q.settled[epochId := q.open.(assets := assets, usdg := usdg)], epoch := epochId + 1, open := NO_BOOK)
    case QueueEntrySettled(owner, epochId, shares, assets, usdg) => EntrySettled(q, owner, epochId, shares, assets, usdg)
    case StrandShareSettled(owner, gen, wad, assets, usdg) =>
      var o := OwedTo(q, owner);
      var s := Get(q.strands, gen, StrandBook(0, 0, 0));
      q.(owed := q.owed[owner := o.(assets := o.assets + assets, usdg := o.usdg + usdg, wad := 0)],
         strands := q.strands[gen := StrandBook(Sub(s.wad, wad), Sub(s.assets, assets), Sub(s.usdg, usdg))])
    case ReserveHaircut(owner, _, paid) => q.(owed := q.owed[owner := OwedTo(q, owner).(assets := paid)])
    case CompleteRedeem(owner, _, usdg) =>
      var o := OwedTo(q, owner);
      q.(owed := q.owed[owner := o.(assets := 0, usdg := Sub(o.usdg, usdg))])
    case StrandedClaimRecovered(gen, assets, usdg, queueWad) =>
      q.(strands := q.strands[gen := StrandBook(queueWad, QueueCut(assets, queueWad), QueueCut(usdg, queueWad))])
    case _ => q
  }

  function NextTxs(x: Txs, tx: Hash, log: Log): Txs {
    var y := x.(tx := Some(tx), seen := x.seen + {tx});
    match log
    case RollClose(_, _, _, _) => y.(closeTx := Some(tx))
    case StrandedClaimRecovered(_, _, usdg, queueWad) => y.(retryTx := Some(tx), live := LiveCut(usdg, queueWad))
    case _ => y
  }

  // A checkpoint batched after a retry in the retry's own transaction.
  predicate Ambiguous(g: Books, e: Emission) {
    e.log.Harvest? && OriginBy(e.entry) == HarvestOrigin.Checkpoint && g.txs.retryTx == Some(e.tx)
  }

  // A flat settleQueue batched after a rollClose in the close's own transaction.
  predicate Misdated(g: Books, e: Emission) {
    e.log.QueueSettled? && e.entry == FromSettleQueue && g.txs.closeTx == Some(e.tx)
  }

  function Min(a: nat, b: nat): nat { if a < b then a else b }

  // The part of a sweep misread as strike proceeds: up to what the last recovery paid live shares.
  function LeakBy(g: Books, e: Emission): nat
    requires e.log.Harvest?
  {
    if Ambiguous(g, e) then Min(g.txs.live, e.log.gross) else 0
  }

  // The part of its fee that the premium left after that does not cover.
  function ClampBy(g: Books, e: Emission): nat
    requires e.log.Harvest?
  {
    if Ambiguous(g, e) then Sub(e.log.fee, e.log.gross - LeakBy(g, e)) else 0
  }

  function NextTruth(g: Books, e: Emission): Truth {
    var u := g.truth;
    match e.log
    case Harvest(n, _, _, _) =>
      var named := u.(origins := u.origins + [OriginBy(e.entry)]);
      if !Ambiguous(g, e) then named
      else
        named.(ambiguous := u.ambiguous + {|u.origins|},
               leaks := u.leaks[n := Get(u.leaks, n, 0) + LeakBy(g, e)],
               clamps := u.clamps[n := Get(u.clamps, n, 0) + ClampBy(g, e)])
    case QueueSettled(epochId, _, _, _) =>
      u.(settledIn := u.settledIn[epochId := if e.entry == FromRollClose then Some(g.machine.cycle) else None],
         misdated := if Misdated(g, e) then u.misdated + {epochId} else u.misdated)
    case _ => u
  }

  function Next(g: Books, e: Emission): Books {
    Books(NextMachine(g.machine, e.log), NextOrders(g, e.log), NextTokens(g.tokens, e.log),
          NextQueue(g.queue, e.log), NextTxs(g.txs, e.tx, e.log), NextTruth(g, e))
  }
}
