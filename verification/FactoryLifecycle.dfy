// The factory market's rows (indexer/ponder.schema.ts, without pure stamps) and the pure decisions
// its handlers delegate to (indexer/lib/factoryLifecycle.ts).
module FactoryLifecycle {
  import opened Common

  datatype AccountStatus = Idle | Pending | Listed | Settled

  datatype Outcome = Unfilled | Assigned | Expired | Unredeemed

  datatype WriterAccount = WriterAccount(
    owner: nat,
    index: nat,
    status: AccountStatus,
    depositedTotal: nat,
    withdrawnTotal: nat,
    claimedUsdg: nat,
    requestedLots: nat,
    listedLots: nat,
    filledLots: nat,
    listedWeekId: Option<nat>,
    optionId: Option<nat>,
    listedAskUsdg: nat,
    lotsListed: nat,
    lotsFilled: nat,
    premiumUsdg: nat,
    settlements: nat)

  // The row of a clone whose creation was not indexed: owner and index at their "unknown" values.
  const BARE_ACCOUNT := WriterAccount(0, 0, AccountStatus.Idle, 0, 0, 0, 0, 0, 0, None, None, 0, 0, 0, 0, 0)

  datatype WeekTerms = WeekTerms(strikeUsdg: nat, exerciseTs: nat, baseExpiryTs: nat, askUsdg: nat)

  datatype Week = Week(
    terms: WeekTerms,
    lotsListed: nat,
    lotsFilled: nat,
    premiumUsdg: nat,
    accountsListed: nat,
    accountsSettled: nat,
    assetReturned: nat,
    assignedUsdg: nat)

  datatype Market = Market(
    weekId: nat,
    terms: WeekTerms,
    accountCount: nat,
    pendingLots: nat,
    lotsListed: nat,
    lotsFilled: nat,
    premiumUsdg: nat,
    settlements: nat,
    assetReturned: nat,
    assignedUsdg: nat,
    claimedUsdg: nat)

  const NEW_MARKET := Market(0, WeekTerms(0, 0, 0, 0), 0, 0, 0, 0, 0, 0, 0, 0, 0)

  // The key of an append-only row: transaction hash and log index.
  datatype EventId = EventId(tx: Hash, logIndex: nat)

  datatype FillRow = FillRow(account: nat, owner: nat, weekId: Option<nat>, optionId: nat, orderHash: Hash, premiumUsdg: nat)

  datatype SettlementRow = SettlementRow(
    account: nat,
    owner: nat,
    weekId: Option<nat>,
    lotsListed: nat,
    lotsFilled: nat,
    assetReturned: nat,
    strikeUsdg: nat,
    outcome: Outcome)

  // ---------------------------------------------------------------- decisions

  function StatusAfterRequest(lots: nat): AccountStatus {
    if lots == 0 then AccountStatus.Idle else AccountStatus.Pending
  }

  // An account counts towards the market's pending lots only until its request is listed.
  function PendingContribution(a: WriterAccount): nat {
    if a.status == AccountStatus.Pending then a.requestedLots else 0
  }

  // One account's share of the total replaced by its new one; the source stops at zero on the way down.
  function PendingLotsAfter(total: nat, before: WriterAccount, after: WriterAccount): nat {
    var next := total - PendingContribution(before) + PendingContribution(after);
    if next > 0 then next else 0
  }

  function SettlementOutcome(filledLots: nat, assetReturned: nat, strikeUsdg: nat): Outcome {
    if filledLots == 0 then Unfilled
    else if strikeUsdg > 0 then Assigned
    else if assetReturned > 0 then Expired
    else Unredeemed
  }

  // The columns settle resets; the option id survives only an unredeemed claim.
  function AccountAfterSettled(a: WriterAccount, outcome: Outcome): WriterAccount {
    a.(status := AccountStatus.Settled, requestedLots := 0, listedLots := 0, filledLots := 0, listedWeekId := None,
       listedAskUsdg := 0, optionId := if outcome == Unredeemed then a.optionId else None)
  }

  function WeekAfterListing(w: Week, lots: nat): Week {
    w.(lotsListed := w.lotsListed + lots, accountsListed := w.accountsListed + 1)
  }

  function WeekAfterFill(w: Week, premiumUsdg: nat): Week {
    w.(lotsFilled := w.lotsFilled + 1, premiumUsdg := w.premiumUsdg + premiumUsdg)
  }

  function WeekAfterSettlement(w: Week, assetReturned: nat, strikeUsdg: nat): Week {
    w.(accountsSettled := w.accountsSettled + 1, assetReturned := w.assetReturned + assetReturned,
       assignedUsdg := w.assignedUsdg + strikeUsdg)
  }
}
