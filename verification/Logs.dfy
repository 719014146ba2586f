// The logs the vault handlers receive, with the arguments they read.
module Logs {
  import opened Common
  import opened History

  // Seaport's ItemType: only these two appear in a vault listing.
  const ITEM_ERC20: nat := 1
  const ITEM_ERC1155: nat := 3

  datatype Token = Clearinghouse | Usdg | Other(id: nat)

  datatype OfferItem = OfferItem(itemType: nat, token: Token, amount: nat)

  datatype ConsiderationItem = ConsiderationItem(itemType: nat, token: Token, amount: nat, recipient: Address)

  // The option's window as RollOpen's handler reads it: Valorem's tuple for the id and, for a figure it does
  // not give, the vault's own snapshot. 0 stands for an answer of 0 and for none.
  datatype WindowReads = WindowReads(optionExercise: nat, optionExpiry: nat, vaultExercise: nat, vaultExpiry: nat)

  datatype Log =
    // indexer/src/token.ts
    | AssetIn(amount: nat)
    | AssetOut(amount: nat)
    | UsdgIn(amount: nat)
    | UsdgOut(amount: nat)
    // indexer/src/vault.ts: shares and the queue
    | Transfer(from: Address, to: Address, value: nat)
    | Deposit(owner: Address, assets: nat)
    | Withdraw(owner: Address, assets: nat)
    | QueueRedeem(owner: Address, shares: nat, epochId: nat)
    | EpochStrandShare(epochId: nat, gen: nat, wad: nat)
    | QueueSettled(epochId: nat, shares: nat, assets: nat, usdg: nat)
    | QueueEntrySettled(owner: Address, epochId: nat, shares: nat, assets: nat, usdg: nat)
    | StrandShareSettled(owner: Address, gen: nat, wad: nat, assets: nat, usdg: nat)
    | ReserveHaircut(owner: Address, booked: nat, paid: nat)
    | UsdgLegDeferred(owner: Address, usdg: nat)
    | CompleteRedeem(owner: Address, assets: nat, usdg: nat)
    | ClaimUsdg(owner: Address, amount: nat)
    // indexer/src/vault.ts: the phase machine
    | RollOpen(cycleNumber: nat, optionId: nat, strikeUsdg: nat, window: WindowReads)
    | CallsWritten(optionId: nat, claimKey: nat, contracts: nat, collateral: nat)
    | BookLocked(cycleNumber: nat)
    | ClaimStranded(cycleNumber: nat, claimKey: nat, gen: nat)
    | RollClose(cycleNumber: nat, assets: nat, usdg: nat, assignedCount: nat)
    | ClaimRedeemed(claimKey: nat, assets: nat, usdg: nat)
    | StrandedClaimRecovered(gen: nat, assets: nat, usdg: nat, queueWad: nat)
    | Harvest(cycleNumber: nat, gross: nat, fee: nat, net: nat)
    | UsdgDistributed(amount: nat, accUsdgPerShare: nat)
    | UsdgUnallocated(total: nat)
    // indexer/src/vault.ts: listings
    | ListingApproved(orderHash: Hash, amount: nat, gross: nat, seq_: nat)
    | ListingCancelled(orderHash: Hash)
    | AllListingsInvalidated(newCounter: nat)
    // indexer/src/seaport.ts
    | OrderFulfilled(orderHash: Hash, offerer: Address, offer: seq<OfferItem>, consideration: seq<ConsiderationItem>)
    | OrderCancelled(orderHash: Hash)
    | CounterIncremented(newCounter: nat)
    // indexer/src/valorem.ts
    | OptionsWritten(optionId: nat, claimId: nat)
    | BucketWrittenInto(claimId: nat, bucketIndex: nat)
    | BucketAssignedExercise(optionId: nat, bucketIndex: nat, amount: nat)
    | ClearClaimRedeemed(assets: nat, usdg: nat)

  function ContractsIn(item: OfferItem): nat {
    if item.itemType == ITEM_ERC1155 && item.token == Clearinghouse then item.amount else 0
  }

  function Contracts(offer: seq<OfferItem>): nat {
    if offer == [] then 0 else Contracts(offer[..|offer| - 1]) + ContractsIn(offer[|offer| - 1])
  }

  // What one consideration item pays in USDG to the vault, and to anybody else.
  function PaidToVault(item: ConsiderationItem): nat {
    if item.itemType == ITEM_ERC20 && item.token == Usdg && item.recipient == Vault then item.amount else 0
  }

  function ToVault(consideration: seq<ConsiderationItem>): nat {
    if consideration == [] then 0
    else ToVault(consideration[..|consideration| - 1]) + PaidToVault(consideration[|consideration| - 1])
  }

  // ---------------------------------------------------------------- the items, one by one

  // Seaport's ERC-1155 items of the clearinghouse are the calls sold; its ERC-20 items of USDG are what the
  // buyer pays, by whom they pay.
  function CallsSold(): OfferItem -> int {
    (i: OfferItem) => if i.itemType == 3 && i.token == Clearinghouse then i.amount else 0
  }

  function UsdgToVault(): ConsiderationItem -> int {
    (i: ConsiderationItem) => if i.itemType == 1 && i.token == Usdg && i.recipient == Vault then i.amount else 0
  }

  function UsdgToOthers(): ConsiderationItem -> int {
    (i: ConsiderationItem) => if i.itemType == 1 && i.token == Usdg && i.recipient != Vault then i.amount else 0
  }

  // The loops' totals are the items' own, each counted by itself and once.
  lemma {:induction false} ContractsAreItems(offer: seq<OfferItem>)
    ensures Contracts(offer) == Added(offer, CallsSold())
  {
    if offer != [] {
      ContractsAreItems(offer[..|offer| - 1]);
    }
  }

  lemma {:induction false} PaymentIsItems(consideration: seq<ConsiderationItem>)
    ensures ToVault(consideration) == Added(consideration, UsdgToVault())
  {
    if consideration != [] {
      PaymentIsItems(consideration[..|consideration| - 1]);
    }
  }
}
