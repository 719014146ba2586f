// No WAD is left behind in an epoch: after every log of every legal run, once all the shares an epoch
// settled have been claimed, so has the whole of its share of a stranded claim.
module DrainLedger {
  import opened Common
  import opened Lifecycle
  import opened Rows
  import opened Logs
  import opened Reducers
  import opened Chain
  import opened QueueMirror

  predicate Drained(ep: Epoch) {
    && (ep.strandGen == None ==> ep.strandWad == 0)
    && (ep.settled && 0 < ep.sharesSettled <= ep.sharesClaimed ==> ep.strandWadClaimed == ep.strandWad)
  }

  ghost predicate DrainLaw(epochs: map<nat, Epoch>) {
    forall id: nat :: id in epochs ==> Drained(epochs[id])
  }

  // The last claimant takes the rest, whatever the earlier ones were floored to.
  lemma LastEntryDrains(ep: Epoch, book: EpochBook, shares: nat, assets: nat, usdg: nat)
    requires SettledMirrors(ep, book) && Drained(ep)
    ensures Drained(Drawn(ep, shares, assets, usdg))
  {
    hide EntryStrandShare;
    if ep.sharesClaimed + shares >= ep.sharesSettled && ep.strandGen.Some? && 0 < ep.sharesSettled {
      TakesTheRest(ep.sharesSettled, ep.sharesClaimed, ep.strandWad, ep.strandWadClaimed, shares);
    }
    if ep.strandGen == None {
      assert ep.strandWadClaimed == 0;
    }
  }

  lemma TakesTheRest(sharesSettled: nat, sharesClaimed: nat, strandWad: nat, strandWadClaimed: nat, shares: nat)
    requires strandWadClaimed <= strandWad && sharesClaimed + shares >= sharesSettled
    ensures EntryStrandShare(sharesSettled, sharesClaimed, strandWad, strandWadClaimed, shares) == strandWad - strandWadClaimed
  {
  }

  lemma DrainKept(t: Db, g: Books, e: Emission)
    requires QueueLaw(t, g) && DrainLaw(t.epochs) && Legal(g, e)
    ensures DrainLaw(EpochsAfter(t, e.tx, e.log))
  {
    if e.log.QueueEntrySettled? {
      var id := e.log.epochId;
      LastEntryDrains(t.epochs[id], g.queue.settled[id], e.log.shares, e.log.assets, e.log.usdg);
    } else if !MovesEpochs(e.log) {
      EpochsStill(t, g.queue, e.tx, e.log);
    }
  }
}
