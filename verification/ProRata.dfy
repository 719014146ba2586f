// Sequential pro-rata claims: the owners of an epoch take their slices of its stranded-claim share
// one after another, each floored against what is left. Over any order of the entries nothing is
// lost, nothing is over-taken, and no slice strays from the exact proportion by more than one unit
// per earlier claim.
module ProRata {
  import opened Common
  import opened Lifecycle
  import opened Rows
  import opened Reducers

  function Total(entries: seq<nat>): nat {
    if entries == [] then 0 else Total(entries[..|entries| - 1]) + entries[|entries| - 1]
  }

  // What the entries have taken of w, claiming in order out of the epoch's shares.
  function Taken(w: nat, shares: nat, entries: seq<nat>): nat {
    if entries == [] then 0
    else
      var earlier := entries[..|entries| - 1];
      Taken(w, shares, earlier)
      + EntryStrandShare(shares, Total(earlier), w, Taken(w, shares, earlier), entries[|entries| - 1])
  }

  // The slice an entry takes after the earlier ones.
  function SliceOf(w: nat, shares: nat, earlier: seq<nat>, entry: nat): nat {
    EntryStrandShare(shares, Total(earlier), w, Taken(w, shares, earlier), entry)
  }

  // ---------------------------------------------------------------- conservation

  // No prefix of the claims takes more than there is.
  lemma {:induction false} NeverOverTaken(w: nat, shares: nat, entries: seq<nat>)
    ensures Taken(w, shares, entries) <= w
  {
    if entries != [] {
      var n := |entries| - 1;
      NeverOverTaken(w, shares, entries[..n]);
      var left := w - Taken(w, shares, entries[..n]);
      var remaining := Sub(shares, Total(entries[..n]));
      if left != 0 && remaining != 0 && entries[n] < remaining {
        PartOfWhole(left, entries[n], remaining);
      }
    }
  }

  // The entry that exhausts the epoch's shares takes everything left, and later ones take nothing.
  lemma {:induction false} EverythingTaken(w: nat, shares: nat, entries: seq<nat>)
    requires entries != [] && Total(entries) >= shares
    ensures Taken(w, shares, entries) == w
  {
    var n := |entries| - 1;
    NeverOverTaken(w, shares, entries[..n]);
    if n > 0 && Total(entries[..n]) >= shares {
      EverythingTaken(w, shares, entries[..n]);
    }
  }

  // ---------------------------------------------------------------- fairness

  // The same slice in terms of what is left and the shares still to claim.
  function SliceAt(left: nat, remaining: nat, s: nat): nat {
    if left == 0 then 0 else if s >= remaining then left else left * s / remaining
  }

  lemma SliceValue(w: nat, shares: nat, earlier: seq<nat>, s: nat)
    requires Total(earlier) + s <= shares
    ensures Taken(w, shares, earlier) <= w
    ensures SliceOf(w, shares, earlier, s) == SliceAt(w - Taken(w, shares, earlier), shares - Total(earlier), s)
  {
    hide Taken;
    NeverOverTaken(w, shares, earlier);
  }

  // What is left after k claims, against the exact proportion of the shares still to claim.
  lemma {:induction false} LeftInProportion(w: nat, shares: nat, entries: seq<nat>)
    requires Total(entries) <= shares && 0 < shares
    ensures Taken(w, shares, entries) <= w
    ensures var left := w - Taken(w, shares, entries); var remaining := shares - Total(entries);
            w * remaining <= left * shares <= w * remaining + |entries| * shares
  {
    hide EntryStrandShare, SliceAt;
    if entries != [] {
      var n := |entries| - 1;
      var earlier, s := entries[..n], entries[n];
      LeftInProportion(w, shares, earlier);
      SliceValue(w, shares, earlier, s);
      var left, remaining := w - Taken(w, shares, earlier), shares - Total(earlier);
      OneSlice(w, shares, left, remaining, s, n);
      assert w - Taken(w, shares, entries) == left - SliceAt(left, remaining, s);
    }
  }

  lemma OneSlice(w: nat, shares: nat, left: nat, remaining: nat, s: nat, k: nat)
    requires 0 < shares && s <= remaining
    requires w * remaining <= left * shares <= w * remaining + k * shares
    ensures SliceAt(left, remaining, s) <= left
    ensures var after := left - SliceAt(left, remaining, s); var rest := remaining - s;
            w * rest <= after * shares <= w * rest + (k + 1) * shares
  {
    if left == 0 {
      Scale(remaining - s, remaining, w);
    } else if s < remaining {
      PartOfWhole(left, s, remaining);
      LeftAfterSlice(w, shares, left, remaining, s, k);
    }
  }

  lemma LeftAfterSlice(w: nat, shares: nat, left: nat, remaining: nat, s: nat, k: nat)
    requires 0 < shares && s < remaining
    requires w * remaining <= left * shares <= w * remaining + k * shares
    ensures var after := left - left * s / remaining; var rest := remaining - s;
            w * rest <= after * shares <= w * rest + (k + 1) * shares
  {
    var slice := left * s / remaining;
    var after, rest := left - slice, remaining - s;
    DivBelow(left * s, remaining);
    assert left * rest <= after * remaining <= left * rest + remaining by {
      assert after * remaining == left * remaining - slice * remaining;
      assert left * rest == left * remaining - left * s;
    }
    NotBelow(w, shares, left, remaining, after, rest);
    NotFarAbove(w, shares, left, remaining, after, rest, k);
  }

  lemma NotBelow(w: nat, shares: nat, left: nat, remaining: nat, after: int, rest: nat)
    requires 0 < remaining && w * remaining <= left * shares && left * rest <= after * remaining
    ensures w * rest <= after * shares
  {
    calc {
      (w * rest) * remaining;
      (w * remaining) * rest;
    <= { Scale(w * remaining, left * shares, rest); }
      (left * shares) * rest;
      (left * rest) * shares;
    <= { Scale(left * rest, after * remaining, shares); }
      (after * remaining) * shares;
      (after * shares) * remaining;
    }
    Cancel(w * rest, after * shares, remaining);
  }

  lemma NotFarAbove(w: nat, shares: nat, left: nat, remaining: nat, after: int, rest: nat, k: nat)
    requires 0 < remaining && rest <= remaining
    requires left * shares <= w * remaining + k * shares && after * remaining <= left * rest + remaining
    ensures after * shares <= w * rest + (k + 1) * shares
  {
    var slack := k * shares;
    calc {
      (after * shares) * remaining;
      { Swap(after, shares, remaining); }
      (after * remaining) * shares;
    <= { Scale(after * remaining, left * rest + remaining, shares); }
      (left * rest + remaining) * shares;
      { Distribute(left * rest, remaining, shares); Swap(left, rest, shares); }
      (left * shares) * rest + remaining * shares;
    <= { Scale(left * shares, w * remaining + slack, rest); }
      (w * remaining + slack) * rest + remaining * shares;
      { Distribute(w * remaining, slack, rest); Swap(w, remaining, rest); }
      (w * rest) * remaining + slack * rest + remaining * shares;
    <= { MulMonotone(slack, rest, remaining); }
      (w * rest) * remaining + slack * remaining + shares * remaining;
      { Distribute(w * rest, slack, remaining); Distribute(w * rest + slack, shares, remaining); }
      (w * rest + slack + shares) * remaining;
    }
    Cancel(after * shares, w * rest + slack + shares, remaining);
    Distribute(k, 1, shares);
  }

  // The slice taken after k earlier claims lies between the floor of the exact proportion and that
  // proportion plus k, whoever claimed before and in whatever order.
  lemma SliceIsFair(w: nat, shares: nat, earlier: seq<nat>, s: nat)
    requires Total(earlier) + s <= shares && 0 < shares
    ensures w * s / shares <= SliceOf(w, shares, earlier, s)
    ensures SliceOf(w, shares, earlier, s) * shares <= w * s + |earlier| * shares
  {
    hide SliceOf, EntryStrandShare, SliceAt, Taken;
    SliceValue(w, shares, earlier, s);
    LeftInProportion(w, shares, earlier);
    FairSlice(w, shares, w - Taken(w, shares, earlier), shares - Total(earlier), s, |earlier|);
  }

  lemma FairSlice(w: nat, shares: nat, left: nat, remaining: nat, s: nat, k: nat)
    requires 0 < shares && s <= remaining
    requires w * remaining <= left * shares <= w * remaining + k * shares
    ensures w * s / shares <= SliceAt(left, remaining, s)
    ensures SliceAt(left, remaining, s) * shares <= w * s + k * shares
  {
    if s == remaining {
      DivBelow(w * s, shares);
      Cancel(w * s / shares, left, shares);
    } else if left == 0 {
      Scale(s, remaining, w);
      assert w * s == 0;
    } else {
      SliceNotBelow(w, shares, left, remaining, s);
      SliceNotFarAbove(w, shares, left, remaining, s, k);
    }
  }

  lemma SliceNotBelow(w: nat, shares: nat, left: nat, remaining: nat, s: nat)
    requires 0 < shares && s < remaining && w * remaining <= left * shares
    ensures w * s / shares <= left * s / remaining
  {
    var floor := w * s / shares;
    DivBelow(w * s, shares);
    DivBelow(left * s, remaining);
    calc {
      (floor * remaining) * shares;
      (floor * shares) * remaining;
    <= { Scale(floor * shares, w * s, remaining); }
      (w * s) * remaining;
      (w * remaining) * s;
    <= { Scale(w * remaining, left * shares, s); }
      (left * shares) * s;
      (left * s) * shares;
    }
    Cancel(floor * remaining, left * s, shares);
    AtMostQuotient(floor, left * s, remaining);
  }

  lemma AtMostQuotient(q: nat, x: nat, d: nat)
    requires 0 < d && q * d <= x
    ensures q <= x / d
  {
    DivBelow(x, d);
    if q > x / d {
      Scale(x / d + 1, q, d);
      assert false;
    }
  }

  lemma SliceNotFarAbove(w: nat, shares: nat, left: nat, remaining: nat, s: nat, k: nat)
    requires 0 < shares && s < remaining && left * shares <= w * remaining + k * shares
    ensures left * s / remaining * shares <= w * s + k * shares
  {
    var slice, slack := left * s / remaining, k * shares;
    DivBelow(left * s, remaining);
    calc {
      (slice * shares) * remaining;
      { Swap(slice, shares, remaining); }
      (slice * remaining) * shares;
    <= { Scale(slice * remaining, left * s, shares); }
      (left * s) * shares;
      { Swap(left, s, shares); }
      (left * shares) * s;
    <= { Scale(left * shares, w * remaining + slack, s); }
      (w * remaining + slack) * s;
      { Distribute(w * remaining, slack, s); Swap(w, remaining, s); }
      (w * s) * remaining + slack * s;
    <= { MulMonotone(slack, s, remaining); }
      (w * s) * remaining + slack * remaining;
      { Distribute(w * s, slack, remaining); }
      (w * s + slack) * remaining;
    }
    Cancel(slice * shares, w * s + slack, remaining);
  }

  // ---------------------------------------------------------------- the epoch's row

  // The row after its entries have settled in order.
  function DrawnBy(ep: Epoch, entries: seq<nat>): Epoch {
    if entries == [] then ep else Drawn(DrawnBy(ep, entries[..|entries| - 1]), entries[|entries| - 1], 0, 0)
  }

  // The index draws the row down by exactly these slices: once the settled shares are all claimed, so
  // is the whole share of the claim, and before that never more than it.
  lemma {:induction false} RowDrawsTaken(ep: Epoch, entries: seq<nat>)
    requires ep.strandGen.Some? && ep.sharesClaimed == 0 && ep.strandWadClaimed == 0
    ensures var after := DrawnBy(ep, entries);
            && after.strandWadClaimed == Taken(ep.strandWad, ep.sharesSettled, entries) <= ep.strandWad
            && after.sharesClaimed == Total(entries)
            && (entries != [] && Total(entries) == ep.sharesSettled ==> after.strandWadClaimed == ep.strandWad)
            && after == ep.(sharesClaimed := after.sharesClaimed, claimCount := after.claimCount, strandWadClaimed := after.strandWadClaimed)
  {
    if entries != [] {
      RowDrawsTaken(ep, entries[..|entries| - 1]);
      if Total(entries) == ep.sharesSettled {
        EverythingTaken(ep.strandWad, ep.sharesSettled, entries);
      }
    }
    NeverOverTaken(ep.strandWad, ep.sharesSettled, entries);
  }
}
