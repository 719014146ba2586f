// Stranded claims: after every log of every legal run, each generation's WAD is exactly accounted
// for between the users holding a staged share of it, the epochs still holding one, and the strand row.
module StrandLedger {
  import opened Common
  import opened Sums
  import opened Lifecycle
  import opened Rows
  import opened Logs
  import opened Reducers
  import opened Chain
  import opened PhaseMirror
  import opened QueueMirror
  import opened TableSums

  // ---------------------------------------------------------------- rows against books

  predicate StrandMirrors(s: Strand, gen: nat, m: Machine, q: Queue) {
    if gen <= m.resolved then
      && s.recovered && s.epochWad == s.queueWad <= WAD
      && gen in q.strands && q.strands[gen] == StrandBook(s.wadLeft, s.assetsLeft, s.usdgLeft)
    else
      && !s.recovered && s.wadLeft == s.assetsLeft == s.usdgLeft == 0
      && s.epochWad + m.remainingWad == WAD
      && s.cycleNumber == m.cycle
  }

  ghost predicate StrandsMirror(strands: map<nat, Strand>, m: Machine, q: Queue) {
    && (forall gen: nat :: gen in strands ==> StrandMirrors(strands[gen], gen, m, q))
    && (forall gen: nat :: gen in q.strands <==> 1 <= gen <= m.resolved)
  }

  // The open epoch holds a share of the claim only between EpochStrandShare and QueueSettled.
  predicate OpenShare(m: Machine, q: Queue) {
    if m.pending == TookShare then q.open.gen == Some(m.gen) else q.open.gen == None && q.open.wad == 0
  }

  // ---------------------------------------------------------------- the conservation law

  function UserWad(gen: nat): User -> int {
    (u: User) => if u.strandGen == Some(gen) then u.strandWad else 0
  }

  function EpochWad(gen: nat): Epoch -> int {
    (ep: Epoch) => if ep.strandGen == Some(gen) then ep.strandWad - ep.strandWadClaimed else 0
  }

  // What is out of the live shares' hands: handed to epochs while the claim is open, left to fold once recovered.
  function WadOut(strands: map<nat, Strand>, gen: nat): nat {
    if gen !in strands then 0 else if strands[gen].recovered then strands[gen].wadLeft else strands[gen].epochWad
  }

  ghost predicate WadSums(users: map<Address, User>, epochs: map<nat, Epoch>, strands: map<nat, Strand>) {
    forall gen: nat :: Sum(users, UserWad(gen)) + Sum(epochs, EpochWad(gen)) == WadOut(strands, gen)
  }

  ghost predicate WadLaw(t: Db, g: Books) {
    && StrandsMirror(t.strands, g.machine, g.queue)
    && OpenShare(g.machine, g.queue)
    && WadSums(t.users, t.epochs, t.strands)
  }

  // ---------------------------------------------------------------- mirrors kept

  lemma OpenShareKept(t: Db, g: Books, e: Emission)
    requires MachineOk(g.machine) && OpenShare(g.machine, g.queue) && Legal(g, e)
    ensures OpenShare(NextMachine(g.machine, e.log), NextQueue(g.queue, e.log))
  {
  }

  predicate MovesStrands(log: Log) {
    log.EpochStrandShare? || log.StrandShareSettled? || log.ClaimStranded? || log.StrandedClaimRecovered?
  }

  lemma StrandsStill(t: Db, g: Books, e: Emission)
    requires Legal(g, e) && PhaseLaw(t, g) && !MovesStrands(e.log)
    ensures StrandsAfter(t, e.tx, e.log) == t.strands
    ensures NextQueue(g.queue, e.log).strands == g.queue.strands
    ensures var n := NextMachine(g.machine, e.log);
            n.gen == g.machine.gen && n.resolved == g.machine.resolved && n.remainingWad == g.machine.remainingWad
            && (n.Stranded() ==> n.cycle == g.machine.cycle)
  {
  }

  lemma StrandsMoved(t: Db, g: Books, e: Emission)
    requires Legal(g, e) && PhaseLaw(t, g) && WadLaw(t, g) && MovesStrands(e.log)
    ensures StrandsMirror(StrandsAfter(t, e.tx, e.log), NextMachine(g.machine, e.log), NextQueue(g.queue, e.log))
  {
    hide LegalHarvest, LegalRollClose, LegalFill, LegalTransfer, LegalEntrySettled, RowMirrors, LastStrandMirrors;
    hide RecoverStrand, QueueCut, LiveCut;
    if e.log.StrandedClaimRecovered? {
      RecoveryIsCut(e.log.assets, e.log.usdg, e.log.queueWad);
    }
  }

  lemma StrandsMirrorKept(t: Db, g: Books, e: Emission)
    requires Legal(g, e) && PhaseLaw(t, g) && WadLaw(t, g)
    ensures StrandsMirror(StrandsAfter(t, e.tx, e.log), NextMachine(g.machine, e.log), NextQueue(g.queue, e.log))
  {
    if MovesStrands(e.log) {
      StrandsMoved(t, g, e);
    } else {
      StrandsStill(t, g, e);
    }
  }

  // ---------------------------------------------------------------- sums kept

  // No staged share exceeds what the strand still has to fold.
  lemma ShareFits(t: Db, g: Books, owner: Address)
    requires QueueLaw(t, g) && WadLaw(t, g) && OwedTo(g.queue, owner).wad > 0
    ensures OwedTo(g.queue, owner).wad <= WadOut(t.strands, OwedTo(g.queue, owner).gen)
  {
    var gen := OwedTo(g.queue, owner).gen;
    assert UserMirrors(Get(t.users, owner, BARE_USER), g.queue, owner);
    forall a | a in t.users ensures UserWad(gen)(t.users[a]) >= 0 {
    }
    SumAtLeast(t.users, owner, UserWad(gen));
    forall e | e in t.epochs ensures EpochWad(gen)(t.epochs[e]) >= 0 {
    }
    SumNonNegative(t.epochs, EpochWad(gen));
  }

  // Every log but the two that stage and fold shares leaves the users' WAD where it was.
  lemma UsersWadStill(t: Db, log: Log, gen: nat)
    requires !log.QueueEntrySettled? && !log.StrandShareSettled?
    ensures Sum(UsersAfter(t, log), UserWad(gen)) == Sum(t.users, UserWad(gen))
  {
    if log.Transfer? {
      if log.value != 0 {
        TransferMovesColumn(t, log, UserWad(gen));
      }
    } else if OwnerOf(log).Some? {
      var a := OwnerOf(log).value;
      SumPut(t.users, a, UserAfter(t, log, UserOf(t, a)), BARE_USER, UserWad(gen));
    }
  }

  lemma EpochsWadStill(t: Db, g: Books, e: Emission, gen: nat)
    requires QueueLaw(t, g) && !e.log.QueueEntrySettled? && !e.log.EpochStrandShare? && Legal(g, e)
    ensures Sum(EpochsAfter(t, e.tx, e.log), EpochWad(gen)) == Sum(t.epochs, EpochWad(gen))
  {
    if e.log.QueueRedeem? {
      SumPut(t.epochs, e.log.epochId, EpochsAfter(t, e.tx, e.log)[e.log.epochId], BARE_EPOCH, EpochWad(gen));
    } else if e.log.QueueSettled? {
      SettlementMovesColumn(t, e.tx, e.log, EpochWad(gen));
    }
  }

  lemma EntryKeepsWad(t: Db, g: Books, e: Emission, gen: nat)
    requires QueueLaw(t, g) && WadLaw(t, g) && Legal(g, e) && e.log.QueueEntrySettled?
    ensures Sum(UsersAfter(t, e.log), UserWad(gen)) + Sum(EpochsAfter(t, e.tx, e.log), EpochWad(gen))
         == Sum(t.users, UserWad(gen)) + Sum(t.epochs, EpochWad(gen))
  {
    var a, id := e.log.owner, e.log.epochId;
    assert UserMirrors(Get(t.users, a, BARE_USER), g.queue, a);
    StakeAgrees(t.epochs[id], g.queue.settled[id], e.log.shares);
    SumPut(t.users, a, UserAfter(t, e.log, UserOf(t, a)), BARE_USER, UserWad(gen));
    SumPut(t.epochs, id, EpochsAfter(t, e.tx, e.log)[id], BARE_EPOCH, EpochWad(gen));
  }

  lemma FoldKeepsWad(t: Db, g: Books, e: Emission, gen: nat)
    requires PhaseLaw(t, g) && QueueLaw(t, g) && WadLaw(t, g) && Legal(g, e) && e.log.StrandShareSettled?
    ensures Sum(UsersAfter(t, e.log), UserWad(gen)) + Sum(t.epochs, EpochWad(gen)) == WadOut(StrandsAfter(t, e.tx, e.log), gen)
  {
    var a := e.log.owner;
    assert UserMirrors(Get(t.users, a, BARE_USER), g.queue, a);
    assert StrandMirrors(t.strands[e.log.gen], e.log.gen, g.machine, g.queue);
    ShareFits(t, g, a);
    SumPut(t.users, a, UserAfter(t, e.log, UserOf(t, a)), BARE_USER, UserWad(gen));
  }

  lemma TakeKeepsWad(t: Db, g: Books, e: Emission, gen: nat)
    requires PhaseLaw(t, g) && QueueLaw(t, g) && WadLaw(t, g) && Legal(g, e) && e.log.EpochStrandShare?
    ensures Sum(t.users, UserWad(gen)) + Sum(EpochsAfter(t, e.tx, e.log), EpochWad(gen)) == WadOut(StrandsAfter(t, e.tx, e.log), gen)
  {
    assert StrandMirrors(t.strands[e.log.gen], e.log.gen, g.machine, g.queue);
    SumPut(t.epochs, e.log.epochId, EpochsAfter(t, e.tx, e.log)[e.log.epochId], BARE_EPOCH, EpochWad(gen));
  }

  // Stranding opens an empty generation; recovery keeps what the epochs took.
  lemma RecoveryKeepsWad(t: Db, g: Books, e: Emission, gen: nat)
    requires PhaseLaw(t, g) && WadLaw(t, g) && Legal(g, e) && (e.log.ClaimStranded? || e.log.StrandedClaimRecovered?)
    ensures WadOut(StrandsAfter(t, e.tx, e.log), gen) == WadOut(t.strands, gen)
  {
    if e.log.StrandedClaimRecovered? {
      assert StrandMirrors(t.strands[e.log.gen], e.log.gen, g.machine, g.queue);
    }
  }

  // Every log but the three that move a share keeps all three terms where they were.
  lemma OtherKeepsWad(t: Db, g: Books, e: Emission, gen: nat)
    requires PhaseLaw(t, g) && QueueLaw(t, g) && WadLaw(t, g) && Legal(g, e)
    requires !e.log.QueueEntrySettled? && !e.log.StrandShareSettled? && !e.log.EpochStrandShare?
    ensures Sum(UsersAfter(t, e.log), UserWad(gen)) + Sum(EpochsAfter(t, e.tx, e.log), EpochWad(gen))
         == WadOut(StrandsAfter(t, e.tx, e.log), gen)
  {
    UsersWadStill(t, e.log, gen);
    EpochsWadStill(t, g, e, gen);
    if MovesStrands(e.log) {
      RecoveryKeepsWad(t, g, e, gen);
    } else {
      StrandsStill(t, g, e);
    }
  }

  lemma WadSumsKept(t: Db, g: Books, e: Emission)
    requires PhaseLaw(t, g) && QueueLaw(t, g) && WadLaw(t, g) && Legal(g, e)
    ensures WadSums(UsersAfter(t, e.log), EpochsAfter(t, e.tx, e.log), StrandsAfter(t, e.tx, e.log))
  {
    forall gen: nat ensures Sum(UsersAfter(t, e.log), UserWad(gen)) + Sum(EpochsAfter(t, e.tx, e.log), EpochWad(gen))
                            == WadOut(StrandsAfter(t, e.tx, e.log), gen)
    {
      if e.log.QueueEntrySettled? {
        EntryKeepsWad(t, g, e, gen);
      } else if e.log.StrandShareSettled? {
        FoldKeepsWad(t, g, e, gen);
      } else if e.log.EpochStrandShare? {
        TakeKeepsWad(t, g, e, gen);
      } else {
        OtherKeepsWad(t, g, e, gen);
      }
    }
  }

  lemma WadKept(t: Db, g: Books, e: Emission)
    requires PhaseLaw(t, g) && QueueLaw(t, g) && WadLaw(t, g) && Legal(g, e)
    ensures WadLaw(Reduce(t, e.tx, e.log), Next(g, e))
  {
    OpenShareKept(t, g, e);
    StrandsMirrorKept(t, g, e);
    WadSumsKept(t, g, e);
  }
}
