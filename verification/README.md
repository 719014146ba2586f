# Callhouse indexer: the published tables, verified

The indexer reduces on-chain logs, one handler at a time, onto linked tables: the vault row, users, queue
epochs, stranded claims, weekly cycles, listings and harvests for the pooled vault; the market row,
accounts, weeks, fills and settlements for the factory. This project models those handlers and proves that
the figures they publish agree with simple definitions over whole runs.

## How it is laid out

- **The handlers.** `Tape.dfy` (class `Index`) and `FactoryTape.dfy` (class `MarketIndex`) are the two indexes as
  objects: one method per handler, statement by statement, each proved to leave exactly the tables its
  specification names and to touch no other column. `Reducers.dfy` and `FactoryReducers.dfy` are those
  specifications, one function per table; `Rows.dfy`, `Logs.dfy`, `Lifecycle.dfy`, `Harvest.dfy` and
  `FactoryLifecycle.dfy` hold the rows, the logs and the pure decisions.
- **The contracts.** `Chain.dfy` and `FactoryChain.dfy` are automata over emitted logs: what the contracts keep in
  their own books, which log may come next, and what the books are afterwards. They are taken from the handler
  comments (the contracts themselves are not part of this model) and never look at the index. A run is any
  sequence of legal logs from the deploy on, in any batching of entry points into transactions.
- **The ledgers.** One file per conservation law, proved log by log: `PhaseMirror`, `QueueMirror`, `StrandLedger`,
  `ReserveLedger`, `FlowLedger`, `DrainLedger`, `ShareLedger`, `SalesLedger`, `CycleLedger`, `MoneyLedger`,
  `WeekLedger`, `OriginLedger`; for the factory `WriterLedger`. `Runs.dfy` joins them into one invariant of every
  legal run, and `Theorems.dfy`, `PolicyLedger.dfy` and `FactoryTheorems.dfy` state what a reader of the tables may
  rely on.
- **Straight off the logs.** The `*History` files read every published column directly off the run, without any
  handler: what was added over the logs that name a row, or what they said last (`History.dfy`). Week n is the
  stretch of the run between two `RollOpen`s. `WeekHistory`, `HarvestHistory`, `ListingHistory`, `QueueHistory`,
  `UserHistory`, `VaultHistory` and `FactoryHistory` prove the handlers' tables say exactly that.
- **True of any tape.** `MarketLedger.dfy`, `HarvestLedger.dfy` and parts of `Theorems.dfy` assume no legality at all.
- **On their own.** `ProRata.dfy`, `Sweeps.dfy`, `Capacity.dfy`, `Calendar.dfy` and `GetLogs.dfy`.

## What turned out false, and exactly when it holds

Two inferences from a transaction hash do not separate what they mean to. Neither case is excluded; each is
characterised on every run, and `Witnesses.dfy` gives a concrete run for each.

- A checkpoint harvest batched **after** a `retryStrandedClaim` in the same transaction reads as the retry's
  (`HarvestOriginsExact`: the published origin is the real one if and only if the harvest is not such a checkpoint).
  It restates a week that is already published, and nothing but that week's own retry otherwise does
  (`PublishedWeekFrozen`). Its premium reads as strike proceeds: principal and premium are kept apart, over the whole
  run and in each week, if and only if every such checkpoint follows a recovery that paid live shares nothing
  (`PrincipalConserved`, `WeekPrincipal`). The credited total and each week's equation hold if and only if every such
  checkpoint's fee fits the premium left (`CreditedConserved`, `WeekAddsUpExactly`).
- A flat `settleQueue` batched after a `rollClose` in the same transaction is dated to that week
  (`SettlementWeeksExact`: the published week is right if and only if the settlement is not such a one).

Three smaller ones: the market's totals are its weeks' if and only if every log found its week's row
(`WeeksAddUpExactly`, `MissedWeekFallsOut`); the session the keeper closes a week on is open if and only if the
calendar does not list the whole of Monday to Friday (`WindowSession`); and `newYorkTimeToUnix` reads the asked wall
clock if and only if the zone's switch does not jump over it (`ThirdGuessExact`; `SkippedHourMissed` is the hour
New York skips in spring, answered an hour late).

The comment above `nextWeekWindow` (keeper/src/calendar.ts:249-256) says a holiday walk back ends on Thursday or
Wednesday and that three tries suffice. The code walks back up to four days, to a Monday that may itself be
listed, and tries four Fridays; the model follows the code, and no configured lead reaches the fourth.

## Model

| member | source | states |
|---|---|---|
| Theorems.PhaseAtRest | indexer/src/vault.ts:534-549 | Between entry points of any legal run: never Settling; stranded iff Idle with a claim open iff the generation is unresolved; no option id iff Idle and not stranded; the locked collateral is the open claim's week's, else 0 |
| Theorems.StrandWadConserved | indexer/src/vault.ts:234-253 | Each generation's WAD is exactly what users have staged plus what epochs still hold: the strand's handed-out WAD while open, its remainder once recovered; while open, handed out plus remaining is 1e18 |
| Theorems.ClaimedEpochIsDrained | indexer/src/vault.ts:328-357 | An epoch whose settled shares have all been claimed has handed out its whole share of the claim |
| Theorems.ReservesDecompose | indexer/src/vault.ts:268-297 | On both legs the reserve is what settled epochs, recovered strands and owed balances still have to pay, at every moment |
| Theorems.ReserveFlows | indexer/src/vault.ts:450-466 | From the published tables alone: everything settlements and recoveries put into a reserve is still in it, was paid to a redeemer, or was written off in a haircut |
| Theorems.HaircutReleasesBooked | indexer/src/vault.ts:393-414 | A haircut and its owner's next payout, whatever logs come between and whoever else is paid meanwhile, together release exactly the booked amount, with no subtraction saturating |
| ReserveLedger.OwedFits | indexer/lib/indexing.ts:243-244 | No claimant is ever owed more than the reserve holds, so subtracting a payout never saturates |
| Theorems.SharesConserved | indexer/src/vault.ts:129-155 | Published supply is the sum of user balances plus the vault's escrow, self-transfers included |
| Theorems.QueueConserved | indexer/src/vault.ts:199-221 | The queue counter, the open epoch's row and its holders' rows agree |
| Theorems.EpochConserved | indexer/src/vault.ts:328-357 | A settled epoch's shares are claimed or still queued in it by some user |
| Theorems.UserRowsMirror | indexer/src/vault.ts:328-349 | Every user row is what the contract's books say of that holder: balance, queue slot, staged claim share, deferred USDG within what is owed |
| Theorems.LifetimeClaims | indexer/src/vault.ts:276-280 | Claimed USDG is the users' claims plus the escrow's accruals; the haircut total is the users' haircuts |
| UserHistory.UserRetold | indexer/src/vault.ts:171-193 | On any tape what an owner deposited, withdrew, redeemed, claimed and lost to haircuts is the total of the logs naming it, and a deferral is the last one said, until USDG is next paid |
| UserHistory.RowsAreNamed | indexer/src/vault.ts:129-155 | On any tape a user has a row iff a log named it or shares moved from or to it; a transfer gives the zero address and the escrow none |
| UserHistory.DeferralIsOwed | indexer/src/vault.ts:420-437 | On a legal run a deferral puts on record exactly what the contract owes at that moment |
| VaultHistory.LifetimesRetold | indexer/src/vault.ts:1132-1136 | On any tape each lifetime figure and count of the vault row is the total of the logs that report it; what buyers paid is read item by item off their orders |
| VaultHistory.SettingsRetold | indexer/src/vault.ts:535-549 | On any tape the option's strike and window, the share index, the carried USDG, the last cancellation, the close's transaction and Seaport's counter are the last ones said |
| VaultHistory.BalancesRetold | indexer/src/token.ts:26-60 | Balances and supply are what came in less what went out, and the open epoch is one past the settled ones |
| QueueHistory.EpochRetold | indexer/src/vault.ts:268-299 | On any tape an epoch's queued, settled and claimed figures and its share of a claim are its own logs' |
| QueueHistory.EpochsAreNamed | indexer/src/vault.ts:268-307 | On any tape an epoch has a row iff a log named it or the one before it settled |
| QueueHistory.StrandRetold | indexer/src/vault.ts:659-690 | A stranded claim's row says which week and claim it was, what it handed out and to how many, and what its recovery brought in and in which transaction |
| QueueHistory.FirstStrandingStays | indexer/src/vault.ts:659-690 | On any tape a generation's row is opened by the first log that strands it and keeps its figures |
| Theorems.WrittenIsSold | indexer/src/vault.ts:585-612 | At every moment each week's write count is Seaport's fill count, which is its listings' fills, plus what fills under way have written and Seaport has not reported; its premium is what those listings paid |
| Theorems.LockedIsWritten | indexer/src/vault.ts:585-600 | The vault row's locked collateral is its written contracts, one lot each, at every moment |
| Theorems.ListingExact | indexer/src/seaport.ts:70-86 | A listing never oversells, is paid its exact unit price, and reads filled iff it sold out |
| Theorems.FilledStaysFilled | indexer/src/vault.ts:934-945 | Once a listing reads filled it does for ever, on any tape, legal or not |
| ListingHistory.ListingRetold | indexer/src/seaport.ts:70-86 | A listing's offer is its approval's and its sales are its fills'; it reads filled once sold out, partially filled once anything sold, cancelled if it ended with nothing sold, else approved |
| ListingHistory.FirstApprovalStays | indexer/src/vault.ts:886-902 | On any tape a listing keeps the terms it was first approved with, however often its approval is replayed |
| ListingHistory.FillWithoutListing | indexer/src/seaport.ts:62-68 | A fill of an order whose approval was not indexed lands on the live week and in the lifetime premium |
| ListingHistory.CancelledBecause | indexer/src/vault.ts:982-992 | On any tape a listing cancelled before it filled ends for the last reason its cancellation's own transaction gives after it, or just as cancelled, whatever later transactions do |
| ListingHistory.FilledBecauseSoldOut | indexer/src/seaport.ts:80-84 | On any tape a filled listing ended by filling |
| ListingHistory.SeaportKeepsReason | indexer/src/seaport.ts:130-142 | Seaport's own cancellation gives a reason only where there is none |
| Theorems.FirstBucketStays | indexer/src/valorem.ts:77-93 | A week's first Valorem bucket is never re-pointed, on any tape |
| Theorems.NoBucketNoCount | indexer/src/valorem.ts:115-128 | No exercise is counted towards a week before its bucket is known, on any tape |
| Theorems.WeeksCounted | indexer/src/vault.ts:1126-1151 | One row per week from 1 on and none for week 0; written = filled + unfilled + the open week; each counter counts exactly its rows |
| Theorems.WeekVerdict | indexer/lib/lifecycle.ts:78-82 | A week is harvested iff it is over, and its status is the verdict of its own figures, stranded iff its claim is still open |
| WeekHistory.WeekArmed | indexer/src/vault.ts:910-919 | A week's option, strike, window and listing columns are its own logs' last |
| WeekHistory.WeekSold | indexer/src/vault.ts:602-612 | A week's writes, fills, contracts, collateral and premium are the totals of its own logs, and its unit price the floor of premium over contracts |
| WeekHistory.WeekClosed | indexer/src/vault.ts:723-730 | What a week was assigned is what its close reported; what came back is the last report of its claim; its strand is the one it ended in |
| WeekHistory.WeekExercised | indexer/src/valorem.ts:77-128 | A week's bucket is the first its own open claim was written into, and its exercise count what was exercised from that bucket of its own option |
| WeekHistory.VerdictOfWeek | indexer/lib/lifecycle.ts:78-82 | A week that is over, its claim not stranded, is assigned iff its close reported an assignment, unfilled iff nothing was ever written in it, and closed otherwise |
| Theorems.PublishedWeekFrozen | indexer/lib/lifecycle.ts:132-135 | Outside its own claim's retry a published week's verdict and money stand still if and only if the log is not an ambiguous checkpoint of that week |
| Theorems.HarvestRowsRetell | indexer/lib/harvest.ts:107-119 | On any tape the harvest rows alone retell every week's money columns, and the lifetime figures and verdict counters are totals of those rows |
| HarvestHistory.HarvestTold | indexer/src/vault.ts:1062-1078 | The row a harvest adds carries that log's figures, measured against all shares at that moment, users' and escrow's; its fee-free part is the strike USDG just reported, or what an ambiguous checkpoint reads instead |
| HarvestHistory.SplitTold | indexer/lib/harvest.ts:54-73 | On any tape a row's strike proceeds, premium and credit are its event's, and both per-share figures are floors of their amount times 1e18 over that supply |
| HarvestHistory.HarvestWeekTold | indexer/src/vault.ts:1084-1103 | And it says what its week's logs had written, sold, assigned and returned by then |
| HarvestHistory.WeekMoneyRetold | indexer/lib/harvest.ts:107-119 | On any tape a week's eight money columns are totals of its sweeps' own parts, and its supply is the last sweep's |
| Theorems.HarvestOriginsExact | indexer/lib/lifecycle.ts:50-58 | The published origin of each harvest is the entry point that emitted it iff it is not a checkpoint batched after a retry in its transaction; terminal iff from rollClose |
| PhaseMirror.OriginExact | indexer/src/vault.ts:1041-1048 | The same for the next harvest from any reachable state: an ambiguous one reads as the retry's and nothing else is misread |
| Theorems.SettlementWeeksExact | indexer/lib/lifecycle.ts:169-175 | The week an epoch is published under is the one whose close settled it, none for a flat settlement, iff it was not a flat one batched after a close |
| Theorems.PrincipalConserved | indexer/lib/harvest.ts:57-73 | Between entry points everything claims returned in USDG is strike proceeds or the queue's part, up to exactly what leaked, and so if and only if no week ever leaked |
| Theorems.CreditedConserved | indexer/lib/harvest.ts:62-73 | Credited = premium + strike proceeds up to exactly what was clamped; it holds, and every week's gross = premium + fee + strike holds, if and only if no week's fee was clamped |
| Theorems.WeekAddsUpExactly | indexer/lib/harvest.ts:107-119 | Each week's gross plus what was clamped in it = premium + fee + strike; the week adds up if and only if no checkpoint of its own was clamped |
| Theorems.WeekPrincipal | indexer/src/vault.ts:1073-1083 | A decided week's strike proceeds are what its close assigned, or what its recovered claim paid live shares, plus exactly what leaked into that week: equal if and only if that week never leaked |
| Theorems.LeakExact | indexer/src/vault.ts:1075-1080 | Nothing leaks into a week iff each of its ambiguous checkpoints follows a recovery that paid live shares nothing, and then nothing is clamped either |
| Theorems.ClampExact | indexer/lib/harvest.ts:63-64 | Nothing is clamped in a week iff the fee of each of its ambiguous checkpoints fits beside what is misread |
| Witnesses.PremiumCanReadAsPrincipal | indexer/lib/lifecycle.ts:43-49 | A concrete legal run: a week strands, a retry recovers it, a deposit batched behind sweeps 10 that publish as strike proceeds |
| Witnesses.FeeCanBeClamped | indexer/lib/harvest.ts:62-64 | The same run with a fee of 1 on that sweep: the week's take and the lifetime credited figure are each one short of their parts |
| Witnesses.PublishedWeekCanBeRestated | indexer/lib/lifecycle.ts:132-135 | On that run the published week's own row is restated by the deposit's sweep |
| Witnesses.SettlementCanBeMisdated | indexer/lib/lifecycle.ts:160-175 | A concrete legal run: a flat settlement batched after an unfilled close is dated to that week |
| Runs.EveryRun | indexer/lib/indexing.ts:43-48 | Every ledger's law holds after every legal run |
| Replay.Replayed | indexer/lib/indexing.ts:43-64 | Replaying a run through the handlers leaves the tables the theorems are about |
| Tape.Index.Apply | indexer/lib/indexing.ts:43-64 | Every log's handler leaves exactly the specified database |
| Tape.Index.OnAssetIn | indexer/src/token.ts:26-33 | The raw balance rises by the transfer and nothing else moves |
| Tape.Index.OnAssetOut | indexer/src/token.ts:35-42 | The raw balance falls, saturating, and nothing else moves |
| Tape.Index.OnUsdgIn | indexer/src/token.ts:44-51 | The USDG balance rises and nothing else moves |
| Tape.Index.OnUsdgOut | indexer/src/token.ts:53-60 | The USDG balance falls, saturating, and nothing else moves |
| Tape.Index.OnTransfer | indexer/src/vault.ts:129-155 | Supply and up to two user rows: mint, burn, escrow and self-transfer |
| Tape.Index.OnDeposit | indexer/src/vault.ts:171-181 | The owner's deposits and their count |
| Tape.Index.OnWithdraw | indexer/src/vault.ts:184-193 | The owner's withdrawals |
| Tape.Index.OnQueueRedeem | indexer/src/vault.ts:199-224 | The queue counter, the epoch's row and the owner's slot |
| Tape.Index.OnEpochStrandShare | indexer/src/vault.ts:234-253 | The claim's remaining WAD, the epoch's share and the strand's handed-out WAD |
| Tape.Index.OnQueueSettled | indexer/src/vault.ts:268-307 | Reserves, queue counter, the epoch's settlement under the inferred week, and the next epoch opened |
| Tape.Index.OnQueueEntrySettled | indexer/src/vault.ts:328-360 | The owner's slot emptied, its slice of the claim staged, the epoch drawn down |
| Tape.Index.OnStrandShareSettled | indexer/src/vault.ts:371-391 | The staged share and the strand's remainders come down |
| Tape.Index.OnReserveHaircut | indexer/src/vault.ts:401-418 | The shortfall leaves the reserve and is recorded |
| Tape.Index.OnUsdgLegDeferred | indexer/src/vault.ts:426-437 | The owner's deferred USDG |
| Tape.Index.OnCompleteRedeem | indexer/src/vault.ts:450-469 | The payout leaves the reserves; a paid USDG leg clears the deferral |
| Tape.Index.OnClaimUsdg | indexer/src/vault.ts:1185-1201 | The claim on the user and on the vault row |
| Tape.Index.OnRollOpen | indexer/src/vault.ts:487-571 | A week is armed with nothing written and its row opened, with the strike and the window read from the option type or, failing that, from the vault |
| Tape.Index.OnCallsWritten | indexer/src/vault.ts:585-622 | One fill's contracts and collateral accumulate on the row and its week |
| Tape.Index.OnBookLocked | indexer/src/vault.ts:630-646 | The book closes and the last cancelled listing learns why |
| Tape.Index.OnClaimStranded | indexer/src/vault.ts:659-690 | The claim strands: the generation opens with its whole WAD |
| Tape.Index.OnRollClose | indexer/src/vault.ts:705-767 | The close's figures on its week, and the stamp later logs are read by |
| Tape.Index.OnClaimRedeemed | indexer/src/vault.ts:777-802 | The position is torn down; a stranded week learns what came back |
| Tape.Index.OnStrandedClaimRecovered | indexer/src/vault.ts:811-860 | Both legs split by the queue's WAD, the strand resolved, the week's late verdict |
| Tape.Index.OnHarvest | indexer/src/vault.ts:1041-1158 | The harvest's row, its week's columns if it touches them, the lifetime figures, and the week's end when terminal |
| Tape.Index.OnUsdgDistributed | indexer/src/vault.ts:1161-1172 | The index moves, the amount accumulates and what was carried is folded in |
| Tape.Index.OnUsdgUnallocated | indexer/src/vault.ts:1176-1183 | The carried USDG |
| Tape.Index.ReadHarvest | indexer/src/vault.ts:1044-1083 | The inferred origin, the cycle's figures (none for cycle 0) and the fee-free part |
| Tape.Index.SweepCycle | indexer/src/vault.ts:1117-1130 | Accumulated onto the week when it touches it; verdict only on the terminal one |
| Tape.Index.OnListingApproved | indexer/src/vault.ts:878-925 | A listing row inserted or kept, and the week's listing columns with its price and size |
| Tape.Index.OnListingCancelled | indexer/src/vault.ts:934-954 | The listing ends unless it filled |
| Tape.Index.OnAllListingsInvalidated | indexer/src/vault.ts:963-975 | The listing cancelled in this transaction reads counter, and the offerer's counter moves |
| Tape.Index.RefineEndReason | indexer/src/vault.ts:982-992 | Only the listing cancelled earlier in the same transaction is renamed, and only if it did not fill |
| Tape.Index.OnOrderFulfilled | indexer/src/seaport.ts:38-121 | A fill on its listing, its week and the lifetime premium; orders of others are ignored |
| Tape.CountContracts | indexer/src/seaport.ts:44-49 | The loop counts exactly the clearinghouse's ERC-1155 offer items, each by itself and once |
| Tape.SplitPayment | indexer/src/seaport.ts:51-57 | The loop splits the USDG consideration by recipient: the vault's items on one side, anybody else's on the other, losing none |
| Tape.Index.OnOrderCancelled | indexer/src/seaport.ts:130-142 | Seaport's cancellation keeps an earlier end reason |
| Tape.Index.OnCounterIncremented | indexer/src/seaport.ts:145-151 | The offerer's counter |
| Tape.Index.OnOptionsWritten | indexer/src/valorem.ts:52-61 | The armed option and claim |
| Tape.Index.OnBucketWrittenInto | indexer/src/valorem.ts:77-93 | The first bucket of our claim is kept |
| Tape.Index.OnBucketAssignedExercise | indexer/src/valorem.ts:115-128 | Exercise of our bucket accumulates on the week |
| Tape.Index.OnClearClaimRedeemed | indexer/src/valorem.ts:141-152 | Valorem's figures on the stranded or current week |
| QueueMirror.StakeAgrees | indexer/lib/lifecycle.ts:187-196 | The slice the index computes from settled-less-claimed columns is the one the contract computes from what the epoch still holds |
| Lifecycle.RecoveryParts | indexer/lib/lifecycle.ts:213-217 | On each leg the queue's part is the floor of its 1e18ths of what came in and live shares have the rest, non-negative while the queue owns at most the whole claim |
| ProRata.NeverOverTaken | indexer/lib/lifecycle.ts:187-196 | No prefix of the claims takes more than the epoch's share, in any order |
| ProRata.EverythingTaken | indexer/lib/lifecycle.ts:181-196 | Entries that total the settled shares take exactly the whole share |
| ProRata.SliceIsFair | indexer/lib/lifecycle.ts:187-196 | The slice after k earlier claims lies between the floor of the exact proportion and the proportion plus k |
| ProRata.RowDrawsTaken | indexer/src/vault.ts:331-357 | The epoch's row is drawn down by exactly these slices |
| HarvestLedger.ToldBySweeps | indexer/lib/harvest.ts:107-119 | On any tape the columns the harvest rows retell for a week are its sweeps up to the terminal one, and its retry's after it, accumulated in order |
| Theorems.PublishedWeekFloors | keeper/src/dryrun-common.ts:101-104 | A published week swept in n harvests at one rate: its fee is at most one sweep's and at most n - 1 base units less, and its credited figure per share is within n of its two parts |
| Sweeps.WeekAddsUp | indexer/lib/harvest.ts:107-119 | A week of sweeps at one rate: gross = premium + fee + strike, credited = premium + strike |
| Sweeps.HarvestFeeFloors | keeper/src/dryrun-common.ts:101-104 | The fee is the floor of so many ten-thousandths of what is not fee-free, and nothing when all of it is |
| Sweeps.SplittingLosesUnderOneUnitEach | keeper/src/dryrun-common.ts:101-104 | n sweeps charge at most what one would and at most n - 1 base units less |
| Sweeps.PerShareWithinSweeps | indexer/lib/harvest.ts:54-73 | The credited figure per share is within n of the premium figure plus the strike proceeds per share |
| Capacity.FillsKeepPolicy | indexer/lib/lifecycle.ts:242-251 | Any fills each within capacity keep total assets and written plus capacity constant and utilization within the policy; the keeper's figure agrees |
| Capacity.FitsExactly | indexer/lib/lifecycle.ts:242-251 | Every fill fits in turn iff all of them together fit to begin with |
| Capacity.PathIndependent | keeper/src/dryrun-common.ts:107-111 | The order and sizes of fills do not matter to the capacity left |
| PolicyLedger.RunKeepsPolicy | indexer/lib/lifecycle.ts:242-251 | From the deploy on, any legal run whose fills each fit the capacity shown just before them is within the policy, through deposits, payouts, haircuts, closes, recoveries and rolls between them |
| PolicyLedger.TotalAssetsTold | indexer/lib/indexing.ts:71-73 | Total assets are what came in and did not leave, less what is reserved, and one lot for each contract written |
| Capacity.FitsExactlyIfWithin | keeper/src/dryrun-common.ts:107-111 | A fill paid out of idle assets leaves the vault within the policy iff it fitted the capacity |
| Capacity.FillSpendsRoom | indexer/lib/indexing.ts:72-73 | One fill moves its collateral from idle to locked and spends exactly its size of capacity |
| FactoryTape.MarketIndex.Apply | indexer/lib/factoryIndexing.ts:34-53 | Every log's handler leaves exactly the specified market tables |
| FactoryTape.MarketIndex.GetAccount | indexer/lib/factoryIndexing.ts:66-80 | A missing account gets a bare row and no other row moves |
| FactoryTape.MarketIndex.PatchWeek | indexer/lib/factoryIndexing.ts:115-120 | A no-op on a week nobody set |
| FactoryTape.MarketIndex.OnAccountCreated | indexer/src/factory.ts:136-160 | A new row, or a bare one named without disturbing what it accumulated; the count rises |
| FactoryTape.MarketIndex.OnAccountRekeyed | indexer/src/factory.ts:167-178 | The owner of a known account |
| FactoryTape.MarketIndex.OnWeekSet | indexer/src/factory.ts:189-225 | The week inserted or kept, its terms on the market |
| FactoryTape.MarketIndex.OnDeposited | indexer/src/writerAccount.ts:42-47 | The account's deposits |
| FactoryTape.MarketIndex.OnWithdrawn | indexer/src/writerAccount.ts:50-55 | The account's withdrawals |
| FactoryTape.MarketIndex.OnWriteRequested | indexer/src/writerAccount.ts:65-79 | The request and the market's pending lots |
| FactoryTape.MarketIndex.OnLotsListed | indexer/src/writerAccount.ts:90-126 | The listing on account, week if it has a row, and market |
| FactoryTape.MarketIndex.OnLotFilled | indexer/src/writerAccount.ts:138-184 | The fill row inserted or kept, and the fill on account, week and market |
| FactoryTape.MarketIndex.OnSettled | indexer/src/writerAccount.ts:196-255 | The settlement row written from the listing before the account is reset |
| FactoryTape.MarketIndex.OnUsdgClaimed | indexer/src/writerAccount.ts:262-270 | The claim on account and market |
| FactoryTape.MarketIndex.OnOwnershipTransferred | indexer/src/writerAccount.ts:273-277 | The account's owner |
| MarketLedger.MarketIsItsAccounts | indexer/lib/factoryLifecycle.ts:70-86 | After any logs whatsoever the pending lots are the pending accounts' requests and every running total is its accounts' sum |
| MarketLedger.FloorNeverBinds | indexer/lib/factoryLifecycle.ts:74-86 | The floor in the running sum never changes it |
| MarketLedger.MarketIsItsWeeks | indexer/lib/factoryLifecycle.ts:184-201 | The market's totals are its weeks' plus exactly what fell under weeks with no row, after any logs |
| MarketLedger.WeeksAddUpExactly | indexer/lib/factoryIndexing.ts:101-112 | The totals are the weeks' sums iff every log found its week's row |
| FactoryTheorems.MissedWeekFallsOut | indexer/src/writerAccount.ts:112-118 | A listing under a week whose WeekSet was missed falls off the week totals |
| FactoryTheorems.MarketMirrorsFactory | indexer/lib/factoryLifecycle.ts:69-72 | On a legal run the pending lots are what accounts off the book asked for; count and week are the factory's |
| FactoryTheorems.AccountStandsWhereItDoes | indexer/lib/factoryLifecycle.ts:54-63 | An account's row has the status, request, pinned week and fills its account really has |
| FactoryTheorems.AccountLedger | indexer/lib/factoryLifecycle.ts:120-141 | Its lifetime lots and fills are its settlement rows plus the listing on the book, and its fill rows |
| FactoryHistory.AccountRetold | indexer/src/writerAccount.ts:42-126 | On any tape every running figure of an account is the total of the logs naming it, and its status, request, booking and index are the last ones said |
| FactoryHistory.AccountsAreNamed | indexer/lib/factoryIndexing.ts:66-80 | On any tape an account has a row iff a log other than a rekey named it |
| FactoryHistory.RowsNeverRewritten | indexer/src/writerAccount.ts:205-224 | On any tape a fill or settlement row is never rewritten, even when its event is replayed |
| FactoryHistory.OwnerAndOptionRetold | indexer/lib/factoryLifecycle.ts:120-141 | The owner is the last one created, rekeyed or transferred to; the option id is the last listing's until a settlement clears it, which all do but one with lots filled and nothing back |
| FactoryHistory.FillTold | indexer/src/writerAccount.ts:138-160 | The row a fill adds is its log's, under the owner and the week the account really is listed under |
| FactoryHistory.SettlementTold | indexer/src/writerAccount.ts:196-225 | The row a settlement adds says what the account really had listed and filled, what came back, and the verdict of those figures |
| FactoryHistory.WeekTermsRetold | indexer/src/factory.ts:189-225 | On any tape a week has a row iff it was set, and keeps the terms it was first set with |
| FactoryHistory.MarketRetold | indexer/src/writerAccount.ts:238-245 | On any tape the market's week and terms are the last set, and its totals are those of the logs |
| FactoryTheorems.WeekBook | indexer/src/writerAccount.ts:205-245 | Listed minus settled is the number of accounts listed under the week; its lots and fills are settled or on the book |
| FactoryTheorems.WeekMoney | indexer/src/writerAccount.ts:163-177 | A week's fills, premium and returns are its fill and settlement rows' |
| FactoryTheorems.MarketIsItsWeeksExactly | indexer/lib/factoryLifecycle.ts:184-201 | On a legal run the market's six totals are its weeks' |
| FactoryTheorems.SettlementsJudged | indexer/lib/factoryLifecycle.ts:107-112 | Each settlement's verdict follows from what was written and what came back; nothing written, nothing returned |
| FactoryTheorems.ReplayedMarket | indexer/lib/factoryIndexing.ts:34-53 | Replaying a run through the handlers leaves the tables the theorems are about |
| GetLogs.MaxAddressesPerGetLogs | indexer/lib/getLogsRange.ts:40-55 | The least bound on every source's list and every event's shared total: with no list repeating an address, some source has that many distinct addresses, or the sources of some event do together; and exactly the factory sources by name |
| GetLogs.BoundUnique | indexer/lib/getLogsRange.ts:40-55 | That number does not depend on the order events are visited in |
| GetLogs.RequestWithinBound | indexer/lib/getLogsRange.ts:12-18 | No request, however its filters were merged, names more addresses than the bound |
| GetLogs.RangeIsLargest | indexer/lib/getLogsRange.ts:62-69 | The largest range within cap and budget, refused iff not even one block fits |
| GetLogs.EveryRequestAnswered | indexer/lib/getLogsRange.ts:57-69 | Every buildable request over the configured range stays within 200,000 addresses times blocks |
| Calendar.NewYorkTimeToUnix | keeper/src/calendar.ts:209-218 | The loop returns the third correction, early exit or not |
| Calendar.ThirdGuessExact | keeper/src/calendar.ts:204-218 | With at most one switch within a day, it reads the asked wall clock iff the switch does not jump over it, iff some instant reads it; over a gap it misses by the gap's width |
| Calendar.SkippedHourMissed | keeper/src/calendar.ts:209-218 | Asked for the 2:00 New York skips in spring, it answers an instant that reads 3:00 |
| Calendar.HourFound | keeper/src/calendar.ts:209-218 | Any hour is found exactly on a day whose offset holds for the five hours of UTC from it: the 16:00 close from 16:00 to 21:00 |
| Calendar.NextWeekWindow | keeper/src/calendar.ts:257-287 | The first candidate Friday far enough away, every earlier one too close; total with at most two skips for any configured lead |
| Calendar.WindowNamesFriday | keeper/src/calendar.ts:262-276 | Counting days from Thursday 1 January 1970: the day named is a Friday from the local day on, its exercise is the lead away or more, no Friday between has one that is, and it expires 86 400 seconds after |
| Calendar.ExerciseReadsFour | keeper/src/calendar.ts:268-275 | The exercise reads 57 600 seconds into the last unlisted day of the week, or into its Monday, wherever one offset holds from then for five hours of UTC |
| Calendar.LastSession | keeper/src/calendar.ts:268-274 | The walk back reaches the last unlisted day within four steps |
| Calendar.WindowSession | keeper/src/calendar.ts:252-255 | Every day after the close up to that Friday is listed; the close is open unless the whole week is |
| Calendar.WindowIsEarliest | keeper/src/calendar.ts:249-256 | No Friday from today on with a close far enough away comes before the chosen one |
| Calendar.ClosesInOrder | keeper/src/calendar.ts:257-287 | Two weeks never share a close, and a later one closes later |
| Calendar.ThirdFridayFarEnough | keeper/src/config.ts:208 | The third Friday always clears the longest lead the configuration accepts |

## Left out

- Ponder, the database, RPC reads, retries and logging: a table is a map, and reads of live views (wiring checks, the UI multiplier) are not modelled, except the option window, whose answers are arguments.
- Stamps (times, block numbers and transaction hashes that no handler reads back), keys copied beside their own row, the vault row's settings, switches and multiplier, and the append-only snapshot rows.
- `FeeSwept`, `OptionsExercised`, governance, role, pause and multiplier handlers: each adds or copies one figure nothing else reads.
- Tape.Index.OnStrandedClaimRecovered: a recovery of a generation with no row stops the source's indexer; here it leaves the strands table alone. No legal run has one.
- The contracts, Seaport and Valorem: only what the handler comments state of their log order and legality, as the automata of Chain.dfy and FactoryChain.dfy. They allow more runs than the contracts do (fills are not held to capacity, policy limits are ignored).
- PolicyLedger.RunKeepsPolicy: while contracts are written, an asset outflow that is neither a fill's nor a payout's (the issuer's burn) and a settlement while stranded lower total assets under what is written, so it allows them only with nothing written; fills are free of the engine fee.
- GetLogs.RequestWithinBound: covers sources with known addresses; a factory source's children are unbounded and its discovery request is not modelled.
- Civil dates and the time-zone database: days are numbers and the zone is any offset function, so `isoDay`, `shiftDay` and `parseOffset` have no counterpart.
- Calendar.NextWeekWindow: its bound on skips assumes no offset reaches a whole day, which every time zone meets.
- Hash and address comparison ignores letter case in the source; here a hash is a number with one spelling.
- `factorySettings`, `holidayHorizon`, the v2 tables and handlers, the rest of the keeper and the web page.
