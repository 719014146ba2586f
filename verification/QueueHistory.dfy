// Every queue epoch and every stranded claim read straight off the logs that name it.
module QueueHistory {
  import opened Common
  import opened History
  import opened Lifecycle
  import opened Rows
  import opened Logs
  import opened Reducers
  import opened Chain
  import opened PhaseMirror
  import opened QueueMirror
  import opened StrandLedger
  import opened Runs

  // ---------------------------------------------------------------- epochs, on any tape at all

  function QueuedInto(id: nat): Emission -> int {
    (e: Emission) => if e.log.QueueRedeem? && e.log.epochId == id then e.log.shares else 0
  }

  function TimesQueued(id: nat): Emission -> int {
    (e: Emission) => if e.log.QueueRedeem? && e.log.epochId == id then 1 else 0
  }

  function SharesSettledOf(id: nat): Emission -> int {
    (e: Emission) => if e.log.QueueEntrySettled? && e.log.epochId == id then e.log.shares else 0
  }

  function AssetsSettledOf(id: nat): Emission -> int {
    (e: Emission) => if e.log.QueueEntrySettled? && e.log.epochId == id then e.log.assets else 0
  }

  function UsdgSettledOf(id: nat): Emission -> int {
    (e: Emission) => if e.log.QueueEntrySettled? && e.log.epochId == id then e.log.usdg else 0
  }

  function EntriesSettled(id: nat): Emission -> int {
    (e: Emission) => if e.log.QueueEntrySettled? && e.log.epochId == id then 1 else 0
  }

  datatype Settlement = Settlement(shares: nat, assets: nat, usdg: nat)

  function SettlementOf(id: nat): Emission -> Option<Settlement> {
    (e: Emission) => if e.log.QueueSettled? && e.log.epochId == id then Some(Settlement(e.log.shares, e.log.assets, e.log.usdg)) else None
  }

  function GenOf(id: nat): Emission -> Option<nat> {
    (e: Emission) => if e.log.EpochStrandShare? && e.log.epochId == id then Some(e.log.gen) else None
  }

  function WadOf(id: nat): Emission -> Option<nat> {
    (e: Emission) => if e.log.EpochStrandShare? && e.log.epochId == id then Some(e.log.wad) else None
  }

  lemma {:induction false} EpochRetold(run: seq<Emission>, id: nat)
    ensures var ep := EpochOf(TapeOf(run), id);
            && ep.sharesQueued == Added(run, QueuedInto(id)) && ep.queueCount == Added(run, TimesQueued(id))
            && ep.sharesClaimed == Added(run, SharesSettledOf(id)) && ep.assetsClaimed == Added(run, AssetsSettledOf(id))
            && ep.usdgClaimed == Added(run, UsdgSettledOf(id)) && ep.claimCount == Added(run, EntriesSettled(id))
            && ep.settled == Latest(run, SettlementOf(id)).Some?
            && Settlement(ep.sharesSettled, ep.assetsSettled, ep.usdgSettled) == Or(Latest(run, SettlementOf(id)), Settlement(0, 0, 0))
            && ep.strandGen == Latest(run, GenOf(id)) && ep.strandWad == Or(Latest(run, WadOf(id)), 0)
  {
    if run != [] {
      hide Reduce, EpochOf;
      var n := |run| - 1;
      EpochRetold(run[..n], id);
      EpochStep(TapeOf(run[..n]), run[n], id);
    } else {
      assert TapeOf(run) == EMPTY_DB;
    }
  }

  lemma EpochStep(t: Db, e: Emission, id: nat)
    ensures var ep, fp := EpochOf(t, id), EpochOf(Reduce(t, e.tx, e.log), id);
            && fp.sharesQueued == ep.sharesQueued + QueuedInto(id)(e) && fp.queueCount == ep.queueCount + TimesQueued(id)(e)
            && fp.sharesClaimed == ep.sharesClaimed + SharesSettledOf(id)(e)
            && fp.assetsClaimed == ep.assetsClaimed + AssetsSettledOf(id)(e)
            && fp.usdgClaimed == ep.usdgClaimed + UsdgSettledOf(id)(e) && fp.claimCount == ep.claimCount + EntriesSettled(id)(e)
            && fp.settled == (SettlementOf(id)(e).Some? || ep.settled)
            && Settlement(fp.sharesSettled, fp.assetsSettled, fp.usdgSettled)
               == Or(SettlementOf(id)(e), Settlement(ep.sharesSettled, ep.assetsSettled, ep.usdgSettled))
            && fp.strandGen == (if GenOf(id)(e).Some? then GenOf(id)(e) else ep.strandGen)
            && fp.strandWad == Or(WadOf(id)(e), ep.strandWad)
  {
    if MovesEpochs(e.log) {
      hide EntryShareOf;
      EpochMoves(t, e, id);
    } else {
      EpochsStill(t, NO_QUEUE, e.tx, e.log);
    }
  }

  const NO_QUEUE := GENESIS.queue

  lemma EpochMoves(t: Db, e: Emission, id: nat)
    requires MovesEpochs(e.log)
    ensures var ep, fp := EpochOf(t, id), Get(EpochsAfter(t, e.tx, e.log), id, BARE_EPOCH);
            && fp.sharesQueued == ep.sharesQueued + QueuedInto(id)(e) && fp.queueCount == ep.queueCount + TimesQueued(id)(e)
            && fp.sharesClaimed == ep.sharesClaimed + SharesSettledOf(id)(e)
            && fp.assetsClaimed == ep.assetsClaimed + AssetsSettledOf(id)(e)
            && fp.usdgClaimed == ep.usdgClaimed + UsdgSettledOf(id)(e) && fp.claimCount == ep.claimCount + EntriesSettled(id)(e)
            && fp.settled == (SettlementOf(id)(e).Some? || ep.settled)
            && Settlement(fp.sharesSettled, fp.assetsSettled, fp.usdgSettled)
               == Or(SettlementOf(id)(e), Settlement(ep.sharesSettled, ep.assetsSettled, ep.usdgSettled))
            && fp.strandGen == (if GenOf(id)(e).Some? then GenOf(id)(e) else ep.strandGen)
            && fp.strandWad == Or(WadOf(id)(e), ep.strandWad)
  {
    hide EntryShareOf;
  }

  // An epoch has a row once a log names it, or once the one before it has settled.
  function EpochNamed(id: nat): Emission -> Option<bool> {
    (e: Emission) =>
      if (e.log.QueueRedeem? || e.log.EpochStrandShare? || e.log.QueueSettled? || e.log.QueueEntrySettled?) && e.log.epochId == id
      then Some(true)
      else if e.log.QueueSettled? && e.log.epochId + 1 == id then Some(true)
      else None
  }

  lemma {:induction false} EpochsAreNamed(run: seq<Emission>, id: nat)
    ensures id in TapeOf(run).epochs <==> Latest(run, EpochNamed(id)).Some?
  {
    if run != [] {
      hide Reduce;
      EpochsAreNamed(run[..|run| - 1], id);
      EpochNamedStep(TapeOf(run[..|run| - 1]), run[|run| - 1], id);
    }
  }

  lemma EpochNamedStep(t: Db, e: Emission, id: nat)
    ensures id in Reduce(t, e.tx, e.log).epochs <==> id in t.epochs || EpochNamed(id)(e).Some?
  {
    hide Drawn, Settled;
  }

  // A generation's row is opened by the first log that strands it, on any tape, and keeps that log's figures.
  lemma {:induction false} FirstStrandingStays(run: seq<Emission>, gen: nat)
    ensures var strands := TapeOf(run).strands;
            && (gen in strands <==> Earliest(run, StrandedFrom(gen)).Some?)
            && (gen in strands ==> Earliest(run, StrandedFrom(gen)) == Some(Origin(strands[gen].cycleNumber, strands[gen].claimKey)))
  {
    if run != [] {
      hide RecoverStrand;
      FirstStrandingStays(run[..|run| - 1], gen);
    }
  }

  // ---------------------------------------------------------------- stranded claims, on legal runs

  datatype Origin = Origin(cycleNumber: nat, claimKey: nat)

  function StrandedFrom(gen: nat): Emission -> Option<Origin> {
    (e: Emission) => if e.log.ClaimStranded? && e.log.gen == gen then Some(Origin(e.log.cycleNumber, e.log.claimKey)) else None
  }

  function HandedOut(gen: nat): Emission -> int {
    (e: Emission) => if e.log.EpochStrandShare? && e.log.gen == gen then e.log.wad else 0
  }

  function EpochsServed(gen: nat): Emission -> int {
    (e: Emission) => if e.log.EpochStrandShare? && e.log.gen == gen then 1 else 0
  }

  function SharesFolded(gen: nat): Emission -> int {
    (e: Emission) => if e.log.StrandShareSettled? && e.log.gen == gen then 1 else 0
  }

  datatype Recovery = Recovery(tx: Hash, assets: nat, usdg: nat, queueWad: nat)

  function RecoveryOf(gen: nat): Emission -> Option<Recovery> {
    (e: Emission) =>
      if e.log.StrandedClaimRecovered? && e.log.gen == gen then Some(Recovery(e.tx, e.log.assets, e.log.usdg, e.log.queueWad)) else None
  }

  predicate ToldAs(s: Strand, recovery: Option<Recovery>) {
    match recovery
    case None => !s.recovered && s.recoveredTx == None && s.assetsIn == s.usdgIn == s.queueWad == 0
    case Some(r) => s.recovered && s.recoveredTx == Some(r.tx) && s.assetsIn == r.assets && s.usdgIn == r.usdg && s.queueWad == r.queueWad
  }

  predicate StrandTold(s: Strand, run: seq<Emission>, gen: nat) {
    && Latest(run, StrandedFrom(gen)) == Some(Origin(s.cycleNumber, s.claimKey))
    && s.epochWad == Added(run, HandedOut(gen)) && s.epochCount == Added(run, EpochsServed(gen))
    && s.settledCount == Added(run, SharesFolded(gen))
    && ToldAs(s, Latest(run, RecoveryOf(gen)))
  }

  // Every generation that stranded has a row, and it says what the logs of that generation said.
  lemma {:induction false} StrandRetold(run: seq<Emission>, gen: nat)
    requires LegalRun(run)
    ensures gen in TapeOf(run).strands ==> StrandTold(TapeOf(run).strands[gen], run, gen)
    ensures gen !in TapeOf(run).strands ==> NothingSaid(run, gen)
  {
    if run != [] {
      hide Reduce, Legal, StrandTold, NothingSaid;
      var n := |run| - 1;
      StrandRetold(run[..n], gen);
      StrandLaws(run[..n]);
      StrandStep(run, TapeOf(run[..n]), BooksOf(run[..n]), gen);
    }
  }

  // No log has named a generation that has not stranded yet.
  predicate NothingSaid(run: seq<Emission>, gen: nat) {
    && Latest(run, StrandedFrom(gen)) == None && Latest(run, RecoveryOf(gen)) == None
    && Added(run, HandedOut(gen)) == Added(run, EpochsServed(gen)) == Added(run, SharesFolded(gen)) == 0
  }

  lemma {:induction false} StrandLaws(run: seq<Emission>)
    requires LegalRun(run)
    ensures PhaseLaw(TapeOf(run), BooksOf(run)) && WadLaw(TapeOf(run), BooksOf(run))
  {
    hide LegalRun, TapeOf, BooksOf;
    EveryRun(run);
  }

  // What one log does to the table at one generation, column by column.
  predicate Stepped(strands: map<nat, Strand>, after: map<nat, Strand>, e: Emission, gen: nat) {
    && (gen in after <==> gen in strands || StrandedFrom(gen)(e).Some?)
    && (gen in strands ==> StrandedFrom(gen)(e) == None)
    && (gen !in strands ==> HandedOut(gen)(e) == EpochsServed(gen)(e) == SharesFolded(gen)(e) == 0 && RecoveryOf(gen)(e) == None)
    && (gen in strands ==>
          var s, r := strands[gen], after[gen];
          && r.cycleNumber == s.cycleNumber && r.claimKey == s.claimKey
          && r.epochWad == s.epochWad + HandedOut(gen)(e) && r.epochCount == s.epochCount + EpochsServed(gen)(e)
          && r.settledCount == s.settledCount + SharesFolded(gen)(e)
          && (match RecoveryOf(gen)(e)
              case None => r.recovered == s.recovered && r.recoveredTx == s.recoveredTx && r.assetsIn == s.assetsIn
                           && r.usdgIn == s.usdgIn && r.queueWad == s.queueWad
              case Some(_) => ToldAs(r, RecoveryOf(gen)(e))))
    && (gen in after && gen !in strands ==>
          var r := after[gen];
          && StrandedFrom(gen)(e) == Some(Origin(r.cycleNumber, r.claimKey))
          && r.epochWad == r.epochCount == r.settledCount == 0 && ToldAs(r, None))
  }

  lemma StrandStep(run: seq<Emission>, t: Db, g: Books, gen: nat)
    requires run != [] && PhaseLaw(t, g) && WadLaw(t, g) && Legal(g, run[|run| - 1])
    requires var before := run[..|run| - 1];
             if gen in t.strands then StrandTold(t.strands[gen], before, gen) else NothingSaid(before, gen)
    ensures var e := run[|run| - 1]; var after := Reduce(t, e.tx, e.log).strands;
            if gen in after then StrandTold(after[gen], run, gen) else NothingSaid(run, gen)
  {
    hide PhaseLaw, WadLaw, Legal, Reduce, StrandedFrom, HandedOut, EpochsServed, SharesFolded, RecoveryOf;
    RowStep(t, g, run[|run| - 1], gen);
  }

  lemma RowStep(t: Db, g: Books, e: Emission, gen: nat)
    requires PhaseLaw(t, g) && WadLaw(t, g) && Legal(g, e)
    ensures Stepped(t.strands, Reduce(t, e.tx, e.log).strands, e, gen)
  {
    hide Legal, PhaseLaw, WadLaw;
    if MovesStrands(e.log) {
      NamedStep(t, g, e, gen);
    } else {
      StrandsStill(t, g, e);
    }
  }

  lemma NamedStep(t: Db, g: Books, e: Emission, gen: nat)
    requires PhaseLaw(t, g) && WadLaw(t, g) && Legal(g, e) && MovesStrands(e.log)
    ensures Stepped(t.strands, StrandsAfter(t, e.tx, e.log), e, gen)
  {
    hide RowMirrors, LastStrandMirrors, TxsOk, RecoverStrand, LegalHarvest, LegalRollClose, LegalFill, LegalTransfer, LegalEntrySettled;
    if e.log.gen == gen && gen in t.strands {
      assert StrandMirrors(t.strands[gen], gen, g.machine, g.queue);
    }
  }
}
