# Zendvo in Dafny

Zendvo moves money: gifts held in escrow until a date, savings in an on-chain vault, deposits that
are confirmed by polling the chain, and one-time codes that guard the sensitive actions. This
project models the parts of it where money or authority could be lost or counted twice, and proves
what holds over every run. `dafny verify dfyconfig.toml` checks all of it.

Each component has the same layout. A machine module holds a value `State`, the steps as functions,
and `Run`, which applies any sequence of steps; a step that the state does not allow changes
nothing. A proofs module holds the theorems about all runs. A class module holds the component as
the code has it, with fields updated in place, and every method is proved to leave exactly the
state that the step function gives. One database statement, one database transaction, or one
synchronous stretch between two awaits is one atomic step; answers from the chain, the network and
code comparisons are arbitrary; the clock never goes back.

| file | what it is |
|---|---|
| `Common.dfy` | results, small numbers, letter case, sizes of sets, sums over maps, truncating division |
| `VaultShares.dfy` | conversion between USDC and vault shares; runs of deposits and withdrawals |
| `UsdcAmount.dfy` | printer and parser of seven-decimal amounts |
| `Token.dfy`, `GiftContract.dfy` | the token ledger and the gift escrow contract |
| `SavingsContract.dfy` | the savings contract |
| `SavingsLedger.dfy` | the recorders of savings transactions and the cached balance |
| `SavingsRace.dfy` | the same recorders as their database transactions overlap |
| `TransactionVerifier.dfy` | sweeps that settle pending rows, racing each other |
| `ActionOtp.dfy` | interleaved requests to the action-code endpoint |
| `ActionOtpGuesses.dfy` | what the cap on misses means for overlapping requests |
| `OtpLockout.dfy` | general codes, the failure window and the account lock |
| `RateLimiter.dfy` | the fixed-window limiter |
| `SponsorMutex.dfy` | the hand-off mutex around the sponsor account's sequence number |
| `SingleFlightCache.dfy` | the cache with shared pending fetches |
| `LogSanitizer.dfy` | redaction of log data over shared and cyclic object graphs |

## Where the code and its promises part

- Promoting a pending savings row credits the amount in the call, not the amount of the row, and
  skips the overdraft check. Balance and history stay in step if and only if the call repeats the
  row's signed amount (`InStepExactlyWhenRepeated`), and a balance goes negative if and only if a
  promotion withdraws more than there is (`OverdrawsExactlyWhenPromoting`, `PromotionCanOverdraw`).
- The wallet routes insert pending rows without looking at the hash, and the schema has no unique
  index on it. Two such rows of one hash are both credited (`DuplicateRowsCountTwice`); a hash counts
  at most once if and only if it is inserted only while no row of it is pending or completed
  (`HashCountsOnceExactly`).
- A recorder locks its own user's row only, and compares hashes as written although it accepts both
  letter cases. So two users' overlapping calls (`BothCountExactlyWhenOverlapping`), or two spellings
  (`SpellingsCountTwice`), count one on-chain transaction twice; `CountsOnceThroughoutExactly` says
  exactly when it counts once.
- A deposit is credited to the wallet its row names whatever that wallet's currency
  (`NairaCountAsDollars`, `ConservedPerCurrencyExactly`).
- Sequence numbers repeat when a load returns less than the last number issued
  (`StaleLoadRepeatsNumber`, `IncreasingExactlyWhenLoadsCatchUp`).
- The cap of five misses on an action code holds for what is counted, not for guesses: requests that
  read the code together each compare one. With an overlap of k there are at most k + 4 wrong
  guesses (`GuessesAreBoundedByOverlap`, reached by `OverlapBoundIsReached`), five without overlap,
  and a right guess read in time still mints after the fifth miss (`MintAfterFifthMissExactly`).
- The cache would hold a key for ever if it were given a fetcher that is no async function and itself
  throws (`StuckExactlyAfterThrow`). An async fetcher that throws, however early, does no such thing,
  and the service passes no other (`AsynchronousCallsStartExactly`).
- With a limit below one, the rate limiter's status reads a fresh key as free although every call is
  refused (`StatusPredictsExactlyWhen`).
- The log sanitizer does not redact an error's name, the text of a function or symbol, or keys, so a
  seed there is printed. The output is seed-free if and only if no such text that is reached holds
  one (`LeaksExactlyRawSeeds`). Errors that the failure loggers sanitize twice leave only the keys
  (`SecondPassLeavesOnlyKeys`).
- An object that is shared but on no cycle is also shown as `[CIRCULAR]` from the second time on: each
  object is marked for every reference beyond its first (`MarksAreExtraReferences`), so the mark is
  absent if and only if the objects form a tree (`NoMarkExactlyForTrees`).
- The exact bounds of the two time windows are one below twice the limit: 2 * limit - 1 admissions
  (`IntervalCapIsReached`) and 17 counted failures in an hour (`SeventeenIsReached`).
- Without outside inflow an accrual is not backed by tokens. Everyone can be paid in every order if
  and only if the balance covers the liabilities (`PaidExactlyWhenSolvent`).

## Model

| member | source | states |
|---|---|---|
| VaultShares.BurnIsLeast | backend/src/lib/services/defindex_service.ts:1014-1016 | the shares burnt are the least number worth at least the amount asked for |
| VaultShares.BurnIsTight | backend/src/lib/services/defindex_service.ts:1014-1016 | their worth exceeds the amount by less than the value of one share |
| VaultShares.ShareCheckNeverFires | backend/src/lib/services/defindex_service.ts:1005-1023 | whatever the vault reports, the insufficient-shares error cannot follow a passed balance check |
| VaultShares.QuotedExactlyWhenCovered | backend/src/lib/services/defindex_service.ts:974-1030 | a withdrawal is quoted if and only if shares and funds exist and the position covers the amount |
| VaultShares.FlooredSumBracket | backend/src/lib/services/defindex_service.ts:1025-1030 | rounding every asset down loses less than one unit per asset against the exact pro-rata share |
| VaultShares.MinimumsBracketAmount | backend/src/lib/services/defindex_service.ts:1014-1030 | the per-asset minimums sum to at least amount - (k - 1) and at most the shares' floored worth; never short with one asset |
| VaultShares.DepositThenPreviewNeverGains | backend/src/lib/services/defindex_service.ts:1206-1231 | a deposit at the estimated shares is worth no more than what was put in |
| VaultShares.DepositBuysTheMostShares | backend/src/lib/services/defindex_service.ts:1195-1231 | a deposit is quoted if and only if its amount is positive and safe and the vault has both shares and funds or neither; it buys the most shares worth no more than the amount, one a unit in an empty vault |
| VaultShares.DepositorLosesBelowOneShare | backend/src/lib/services/defindex_service.ts:1229-1231 | the depositor loses less than one share's worth to rounding, and less than that plus one unit in what the vault then shows |
| VaultShares.PositionIsFloor | backend/src/lib/services/defindex_service.ts:557-585 | a position is shown if and only if the vault has both shares and funds or neither, and is the user's part of the funds rounded down, as is the price |
| VaultShares.MinimumsAreFloors | backend/src/lib/services/defindex_service.ts:998-1030 | every per-asset minimum is that asset's part for the shares burnt, rounded down |
| VaultShares.ReportedMaximumIsExact | backend/src/lib/services/defindex_service.ts:1003-1011 | a refusal for lack of balance reports the exact largest amount that is quoted |
| VaultShares.RefusalsHaveReasons | backend/src/lib/services/defindex_service.ts:968-1023 | a refused quote of any kind names a condition that holds |
| VaultShares.RunNeverLowersPrice | backend/src/lib/services/defindex_service.ts:1005-1030 | over any run of priced deposits and withdrawals the value of a share never falls while shares exist |
| VaultShares.RunKeepsCoherent | backend/src/lib/services/defindex_service.ts:1195-1231 | holdings sum to the supply, and there are shares exactly when there are funds, in every reachable vault |
| VaultShares.OthersHoldingsStay | backend/src/lib/services/defindex_service.ts:1005-1030 | over any run of others' requests a holder's shares stay |
| VaultShares.InconsistencyErrorsUnreachable | backend/src/lib/services/defindex_service.ts:562-585 | the errors for shares without funds and funds without shares cannot occur in a reachable vault |
| VaultShares.PreviewsWithinFunds | backend/src/lib/services/defindex_service.ts:576-585 | the positions shown to all holders together never exceed the funds |
| UsdcAmount.ParsesExactlyWhatIsDenoted | backend/src/lib/services/defindex_service.ts:230-255 | the parser accepts exactly the decimal numerals of positive i128 amounts with at most seven places, at their value |
| UsdcAmount.RefusalsHaveReasons | backend/src/lib/services/defindex_service.ts:230-255 | each error is given if and only if the text is no numeral, denotes zero, or denotes more than i128 holds |
| UsdcAmount.TrimTakesWhiteOnly | backend/src/lib/services/defindex_service.ts:231 | trimming takes white space off the ends and nothing else |
| UsdcAmount.PrintsTheInteger | backend/src/lib/services/defindex_service.ts:214-221 | any integer, at any number of decimals, prints as a minus sign if negative, at least one digit, the point and that many digits, of its own value |
| UsdcAmount.RoundTrip | backend/src/lib/services/defindex_service.ts:214-255 | printing then parsing is the identity on 1 to 2^127 - 1 |
| UsdcAmount.PrintedParseIsCanonical | backend/src/lib/services/defindex_service.ts:214-255 | printing a parsed amount gives canonical text that parses to the same amount |
| UsdcAmount.CanonicalIsRestored | backend/src/lib/services/defindex_service.ts:214-255 | canonical text is restored by parsing and printing |
| UsdcAmount.FormatIsInjective | backend/src/lib/services/defindex_service.ts:214-221 | no two integers of either sign print alike, at any number of decimals |
| UsdcAmount.MatchIsUnique | backend/src/lib/services/defindex_service.ts:232 | the expression's groups are the only way to read the text as whole part and fraction |
| GiftProofs.EveryTokenAccountedFor | contracts/src/gift/contract.rs:72-201 | since deployment, created = locked + claimed + refunded, and the balance is what is locked plus what came from outside |
| GiftProofs.RunAccounts | contracts/src/gift/contract.rs:72-201 | from any state meeting the invariant, balance and locked sum move together by what the run reports |
| GiftProofs.ClaimSucceedsExactlyWhenPermitted | contracts/src/gift/contract.rs:170-201 | in every reachable state a claim succeeds if and only if signed by the recipient of a live, unclaimed, unlocked gift; never for lack of funds |
| GiftProofs.CancelSucceedsExactlyWhenPermitted | contracts/src/gift/contract.rs:135-163 | the same for cancelling by the sender, paused or not |
| GiftProofs.RedirectSucceedsExactlyWhenPermitted | contracts/src/gift/contract.rs:237-255 | in every reachable state a gift is redirected if and only if signed by its sender, live and unclaimed, and then to the recipient named |
| GiftProofs.CreateSucceedsExactlyWhenPermitted | contracts/src/gift/contract.rs:72-128 | a gift is created if and only if not paused, signed, funded, at least the minimum and locked for at most five years |
| GiftProofs.GiftsAnswerToTheirParties | contracts/src/gift/contract.rs:135-255 | over any run without its sender's signature a gift is neither removed nor redirected, and without its recipient's it is not claimed |
| GiftProofs.AdminIsFinal | contracts/src/gift/contract.rs:34-60 | over any run the first initialization is final, and without the admin's signature nothing is paused or resumed |
| GiftProofs.AdminCallsSucceedExactly | contracts/src/gift/contract.rs:261-275 | initializing succeeds only once, pausing only for the admin, each exactly when signed |
| GiftProofs.RefusalsHaveReasons | contracts/src/gift/contract.rs:34-275 | in every reachable state a refusal names a condition that holds; never missing funds or a missing token for a claim or a refund |
| GiftProofs.RunMovesOwnMoney | contracts/src/gift/contract.rs:93-201 | over any run a party's balance moves by the gifts they created, claimed and were refunded and by their own transfers, and by nothing else |
| GiftProofs.RunConservesSupply | contracts/src/gift/contract.rs:72-255 | no run changes the total supply of tokens |
| GiftProofs.StatusOnlyMovesForward | contracts/src/gift/contract.rs:93-201 | an id is never issued, then waiting, then claimed or cancelled for good |
| GiftProofs.IssuedOncePaidOnce | contracts/src/gift/contract.rs:93-201 | in any run an id is issued at most once and paid out at most once, and its status tells which happened |
| GiftProofs.RunProgress | contracts/src/gift/storage.rs:46-84 | counter and time only grow, terms stay as created, removed ids stay removed, no write shortens a lifetime |
| GiftProofs.ClaimWaitsForUnlock | contracts/src/gift/contract.rs:170-201 | a claim after any continuation happens at or after the unlock time of creation and pays the amount of creation |
| GiftProofs.ExtensionIsExact | contracts/src/gift/storage.rs:24-41 | for every stored gift of every run neither the u32 conversion nor the addition saturates, so the extension is ceil(d / 5) + 100, capped by the network only |
| GiftProofs.SaturatesExactlyBeyond | contracts/src/gift/storage.rs:24-41 | it is the cap on lock durations that rules saturation out: without it the conversion saturates exactly beyond 5 * (2^32 - 1) seconds, and the addition 500 seconds earlier |
| GiftProofs.LiveWhileLedgersKeepPace | contracts/src/gift/storage.rs:24-69 | uncapped, and with at most ceil(d / 5) + 100 ledgers closed, the record is still live or was cancelled |
| GiftProofs.LifetimeAfterCall | contracts/src/gift/storage.rs:24-84 | a write makes its record last to the target at least and never less than before; a cancel ends it; no call touches another record's lifetime |
| GiftContract.Contract.BumpGiftTtl | contracts/src/gift/storage.rs:24-41 | the stored lifetime is raised to the target when it falls short and is otherwise left alone |
| GiftContract.Contract.StoreGift | contracts/src/gift/storage.rs:64-69 | writing a record and bumping it in place is the machine's write |
| GiftContract.Contract.Initialize | contracts/src/gift/contract.rs:34-60 | in place, with rollback, does what the machine's step does, error by error |
| GiftContract.Contract.CreateGift | contracts/src/gift/contract.rs:72-128 | the same, returning the new id; a full counter undoes the transfer |
| GiftContract.Contract.CancelGift | contracts/src/gift/contract.rs:135-163 | the same |
| GiftContract.Contract.ClaimGift | contracts/src/gift/contract.rs:170-201 | the same; a refused payout undoes the claimed mark |
| GiftContract.Contract.UpdateRecipient | contracts/src/gift/contract.rs:237-255 | the same |
| GiftContract.Contract.PauseContract | contracts/src/gift/contract.rs:261-275 | the same |
| SavingsProofs.StepSlack | contracts/src/savings/contract.rs:28-228 | balance less liabilities is untouched by deposit, withdrawal, claim and collection, and falls by exactly what is accrued |
| SavingsProofs.RunSlack | contracts/src/savings/contract.rs:28-228 | over a run it moves by outside inflow less accruals |
| SavingsProofs.PermittedPayoutsAreCovered | contracts/src/savings/contract.rs:69-190 | with accruals within slack plus inflow, a payout succeeds if and only if it is permitted |
| SavingsProofs.PaidExactlyWhenSolvent | contracts/src/savings/contract.rs:69-190 | every permitted payout goes through in every order if and only if the balance covers the liabilities |
| SavingsProofs.ShortfallStrandsSomeone | contracts/src/savings/contract.rs:69-190 | from any shortfall there is a run of payouts after which a permitted one fails |
| SavingsProofs.RunKeepsSound | contracts/src/savings/contract.rs:28-228 | with non-negative accruals no obligation ever becomes negative |
| SavingsProofs.RunKeepsWorth | contracts/src/savings/contract.rs:28-228 | over any run tokens plus claims of a party change only by accruals to them and their own dealings outside |
| SavingsProofs.RunConservesSupply | contracts/src/savings/contract.rs:28-228 | no run changes the total supply of tokens |
| SavingsProofs.RecordsAreIsolated | contracts/src/savings/storage.rs:5-25 | over any run of calls that a user does not sign and that do not accrue to them, their record stays as it is |
| SavingsProofs.CallSucceedsExactlyWhenAllowed | contracts/src/savings/contract.rs:28-228 | a call succeeds if and only if signed and allowed: only the admin accrues, collects and pauses; a pause stops deposits alone |
| SavingsProofs.NobodyGainsWithoutTheAdmin | contracts/src/savings/contract.rs:140-228 | over any run the admin does not sign, no call makes anyone richer, and deposits are neither paused nor resumed |
| SavingsProofs.RecordsAreTheirHistories | contracts/src/savings/contract.rs:28-228 | over any run principal is deposits less withdrawals, yield accruals less claims, the pool fees less collections: none pays for another |
| SavingsProofs.RefusalsHaveReasons | contracts/src/savings/contract.rs:28-228 | a refusal names a condition that holds |
| SavingsContract.Contract.DepositSavings | contracts/src/savings/contract.rs:28-64 | in place, with rollback, does what the machine's step does, error by error |
| SavingsContract.Contract.ClaimYield | contracts/src/savings/contract.rs:69-98 | the same; a refused transfer restores the shares |
| SavingsContract.Contract.WithdrawSavings | contracts/src/savings/contract.rs:100-128 | the same; a refused transfer restores the principal |
| SavingsContract.Contract.AccrueYield | contracts/src/savings/contract.rs:198-228 | the same |
| SavingsContract.Contract.CollectFees | contracts/src/savings/contract.rs:164-190 | the same; a refused transfer restores the fee pool |
| SavingsContract.Contract.AccumulatePlatformFees | contracts/src/savings/storage.rs:77-82 | the pool grows by the amount, or stays and reports the overflow |
| SavingsRecordsProofs.BalanceFollowsHistory | backend/src/server/actions.ts:196-299 | over any run the cached balance leaves the fold of the completed history by exactly the promotions' mismatches |
| SavingsRecordsProofs.InStepExactlyWhenRepeated | backend/src/server/actions.ts:217-245 | one call keeps them in step if and only if it repeats the signed amount of the row it promotes |
| SavingsRecordsProofs.SuccessIsRecordedExactly | backend/src/server/actions.ts:144-299 | when a success is recorded, if and only if, and what it writes: a new completed row, a promotion, or nothing |
| SavingsRecordsProofs.FailureIsRecordedExactly | backend/src/server/actions.ts:334-415 | the same for failures, which move no balance |
| SavingsRecordsProofs.RefusalsHaveReasons | backend/src/server/actions.ts:144-415 | a refusal names a condition that holds |
| SavingsRecordsProofs.OthersLeaveUsersAlone | backend/src/server/actions.ts:208-216 | over any run of calls and inserts for others, whatever hashes they name, a user's balance and rows stay |
| SavingsRecordsProofs.PromotionCanLeaveStep | backend/src/server/actions.ts:217-245 | promoting a deposit pending for 100 as one of 40 leaves the balance 60 short of the history |
| SavingsRecordsProofs.RunKeepsUnique | backend/src/server/actions.ts:208-276 | the recorders keep hashes unique; over a run with wallet-route inserts they stay unique throughout if and only if no insert uses a stored hash |
| SavingsRecordsProofs.StatusesAreTerminal | backend/src/server/actions.ts:364-415 | rows stay, keep owner, kind, amount and hash, and never change once they left pending |
| SavingsRecordsProofs.HashCountsOnce | backend/src/server/actions.ts:208-276 | over a run without such an insert, a hash with at most one pending or completed row is completed at most once, and not again if it already was |
| SavingsRecordsProofs.CountsOnceExactly | backend/src/server/actions.ts:208-276 | some calls of the recorders count a hash twice if and only if two rows of it are pending or completed |
| SavingsRecordsProofs.HashCountsOnceExactly | backend/src/api/wallet/deposit.ts:119-133 | a hash stays one that counts at most once, throughout a run, if and only if the wallet routes insert it only while no row of it is pending or completed |
| SavingsRecordsProofs.DuplicateRowsCountTwice | backend/src/api/wallet/deposit.ts:119-133 | the routes do not check that: two pending rows of one hash for 100 each, recorded twice, leave the balance at 200 |
| SavingsRecordsProofs.ReplayChangesNothing | backend/src/server/actions.ts:208-249 | recording a recorded hash again, as success or failure and with whatever input, changes nothing throughout a run if and only if the first recording settled its row, no other row of the hash was pending, and no wallet route inserts the hash anew |
| SavingsRecordsProofs.InertExactly | backend/src/server/actions.ts:208-249 | recording a hash can change nothing if and only if it is stored and no row of it is pending |
| SavingsRecordsProofs.ServiceReplayChangesNothing | backend/src/lib/services/defindex_service.ts:1385-1400 | the service's recorders change nothing for a stored hash, whatever happened in between |
| SavingsRaceProofs.CountsOnceThroughoutExactly | backend/src/server/actions.ts:197-276 | under every interleaving of users' calls and inserts, and across all spellings of its hash, an on-chain transaction stays one that counts at most once if and only if every insert, and every lookup that finds nothing and will count, comes while nothing else of it counts or still will |
| SavingsRaceProofs.CountsOnceExactly | backend/src/server/actions.ts:197-276 | the calls under way and the rows stored can count it twice if and only if two of them count or still will |
| SavingsRaceProofs.RivalLookup | backend/src/server/actions.ts:208-211 | a lookup that breaks this overlaps another user's call or spells the hash unlike a stored row |
| SavingsRaceProofs.BothCountExactlyWhenOverlapping | backend/src/server/actions.ts:197-276 | of two users' calls for one new hash both count if the second looks it up before the first commits, and only the first does if it looks afterwards |
| SavingsRaceProofs.SpellingsCountTwice | backend/src/server/actions.ts:144-183 | one transaction recorded under any two spellings of its hash is credited twice |
| SavingsRaceProofs.UninterruptedIsOneStep | backend/src/server/actions.ts:197-299 | a call that nothing interrupts does what the recorder does in one step |
| SavingsRaceProofs.OwnRowsAreFrozen | backend/src/server/actions.ts:199-206 | while a call holds its user's lock, no other step changes that user's balance or rows |
| SavingsRecordsProofs.OverdrawsExactlyWhenPromoting | backend/src/server/actions.ts:217-258 | a balance becomes negative if and only if a promotion withdraws more than it holds |
| SavingsRecordsProofs.PromotionCanOverdraw | backend/src/api/wallet/withdraw.ts:316-327 | a withdrawal of 100 left pending by the route and promoted at balance 0 ends at -100 |
| SavingsRecordsProofs.ServiceNeverOverdraws | backend/src/lib/services/defindex_service.ts:1374-1448 | the service's recorder, which promotes nothing, keeps every balance non-negative over any run |
| SavingsLedger.Ledger.FindByHash | backend/src/server/actions.ts:208-211 | finds a row with the hash if and only if there is one |
| SavingsLedger.Ledger.UpdateBalance | backend/src/server/actions.ts:282-296 | adds a deposit to, or takes a withdrawal from, the one user's balance and activates it |
| SavingsLedger.Ledger.RecordSuccessful | backend/src/server/actions.ts:185-299 | in place does what the machine's step does, error by error |
| SavingsLedger.Ledger.RecordFailed | backend/src/server/actions.ts:334-415 | in place does what the machine's step does, error by error |
| VerifierProofs.BalancesGrowByCompletedDeposits | backend/src/jobs/transaction_verifier.ts:110-281 | under every interleaving of sweeps, balances grow by exactly the deposits completed, in total and user by user, currencies aside |
| VerifierProofs.BalancesGrowPerScope | backend/src/jobs/transaction_verifier.ts:110-281 | per user and currency they grow by the deposits completed, plus exactly what was credited in another currency |
| VerifierProofs.ConservedPerCurrencyExactly | backend/src/jobs/transaction_verifier.ts:131-152 | conservation per currency holds throughout a run if and only if every deposit completed into a wallet its row names is in that wallet's currency |
| VerifierProofs.NairaCountAsDollars | backend/src/jobs/transaction_verifier.ts:131-152 | the code does not compare them: a deposit of 100 NGN whose row names a USDC wallet adds 100 USDC |
| VerifierProofs.SettleMovesExcess | backend/src/jobs/transaction_verifier.ts:110-212 | settling a row, however stale the read, credits and completes together or neither, per user and currency, but for a credit to a named wallet in another currency |
| VerifierProofs.DepositReachesItsWallet | backend/src/jobs/transaction_verifier.ts:110-187 | when a pending deposit completes, if and only if, and where it goes: to the wallet named, else to one the user has in its currency, and to a new one if and only if there is none; the row keeps that wallet |
| VerifierProofs.RunKeepsOneWalletEach | backend/src/jobs/transaction_verifier.ts:145-176 | however sweeps interleave, a user never gets a second wallet of one currency |
| VerifierProofs.SettledRowsAreFinal | backend/src/jobs/transaction_verifier.ts:124-212 | a row that left pending never changes again; owner, amount, kind, currency and hash never change |
| VerifierProofs.CompletedOnlyWhenConfirmed | backend/src/jobs/transaction_verifier.ts:229-281 | a row completes only after the chain reported success for its own hash |
| VerifierProofs.FailedOnlyWhenDue | backend/src/jobs/transaction_verifier.ts:229-281 | a row fails only after the chain reported failure for its own hash, or after the timeout |
| VerifierProofs.StatusIsFirstDecision | backend/src/jobs/transaction_verifier.ts:229-281 | however sweeps interleave, a pending row ends in the status of the first decision about it, and stays pending if and only if none was made |
| VerifierJob.Database.CompleteDeposit | backend/src/jobs/transaction_verifier.ts:110-187 | in place, with rollback at a failure, does what the deposit transaction of the machine does |
| VerifierJob.Database.UpdateStatus | backend/src/jobs/transaction_verifier.ts:189-213 | changes the status of a pending row and nothing else |
| VerifierJob.Database.Reconcile | backend/src/jobs/transaction_verifier.ts:229-281 | alone on the database, every listed row ends as its own answer decides, the summary counts the rows by how they ended and leaves none out, balances move only with completed deposits |
| ActionOtpProofs.OneTokenPerCode | backend/src/api/auth/action-otp/verify/route.ts:149-279 | under every interleaving one code mints at most one token |
| ActionOtpProofs.TokenCarriesScopeOfItsCode | backend/src/api/auth/action-otp/verify/route.ts:149-279 | a minted token carries the user and the action its code was issued for |
| ActionOtpProofs.RemainingCountsAreAnsweredOnce | backend/src/api/auth/action-otp/verify/route.ts:200-248 | attempts never exceed 5; while stored, exactly the counts from 4 down to 5 - attempts were answered, once each; none ever twice |
| ActionOtpProofs.SupersededNeverMints | backend/src/server/services/otpService.ts:271-302 | a new code ends older ones of its scope, even for requests that had read them |
| ActionOtpProofs.DeadNeverMints | backend/src/api/auth/action-otp/verify/route.ts:250-279 | a code that is used, gone, or missed five times with no earlier reader left, and consumed by no request, mints nothing in any continuation |
| ActionOtpProofs.UsableUntilConsumedOrSuperseded | backend/src/api/auth/action-otp/verify/route.ts:149-270 | over any run within its lifetime a code stays usable if and only if nobody consumes it and no newer one of its user and action is issued |
| ActionOtpProofs.RequestsWriteExactly | backend/src/api/auth/action-otp/verify/route.ts:163-262 | what each step of a request, and a cleanup, writes to the store: which codes go and which attempts are counted |
| ActionOtpProofs.AnswersExactly | backend/src/api/auth/action-otp/verify/route.ts:113-298 | a request gets an answer if and only if the answer is true at that step |
| ActionOtpGuesses.GuessesAreBoundedByOverlap | backend/src/api/auth/action-otp/verify/route.ts:184-248 | with at most k requests at a time between a wrong comparison and its count, a code is guessed wrongly at most k + 4 times, plus once for each that breaks off there |
| ActionOtpGuesses.OverlapBoundIsReached | backend/src/api/auth/action-otp/verify/route.ts:200-279 | for every k a run makes k + 4 wrong guesses with an overlap of k, and a request that read the code before the fifth miss still mints |
| ActionOtpGuesses.MintWasReadInTime | backend/src/api/auth/action-otp/verify/route.ts:149-200 | every mint belongs to a request that found the code unused, in time and missed fewer than five times |
| ActionOtpGuesses.MintPassedEveryCheck | backend/src/api/auth/action-otp/verify/route.ts:113-279 | every mint belongs to a request whose user was found in good standing and which then guessed right at a code issued to that user for that action at most five minutes before |
| ActionOtpGuesses.RightGuessMints | backend/src/api/auth/action-otp/verify/route.ts:149-298 | within its five minutes an issued code neither consumed nor superseded, and missed fewer than five times, mints for the next right guess, whatever else went on |
| ActionOtpGuesses.MintAfterFifthMissExactly | backend/src/api/auth/action-otp/verify/route.ts:253-262 | a mint can follow the fifth miss if and only if the code is unused and a request that read it earlier has yet to consume it |
| ActionOtpProofs.RunKeepsInv | backend/src/api/auth/action-otp/verify/route.ts:149-279 | the invariant behind these, over every run |
| ActionOtpEndpoint.Endpoint.FindCode | backend/src/api/auth/action-otp/verify/route.ts:149-160 | finds a newest unused code of the user for the action if and only if there is one |
| ActionOtpEndpoint.Endpoint.ReadCode | backend/src/api/auth/action-otp/verify/route.ts:149-200 | in place does what the machine's step does |
| ActionOtpEndpoint.Endpoint.Increment | backend/src/api/auth/action-otp/verify/route.ts:205-248 | the same, for the conditional update |
| ActionOtpEndpoint.Endpoint.Consume | backend/src/api/auth/action-otp/verify/route.ts:250-270 | the same, for the conditional delete |
| ActionOtpEndpoint.Endpoint.Mint | backend/src/api/auth/action-otp/verify/route.ts:270-298 | appends one token scoped to the request and does what the machine's step does |
| OtpLockoutProofs.RunKeepsValid | backend/src/server/services/otpService.ts:271-536 | between calls at most 9 failures, at most 5 attempts a general code, at most one open general code |
| OtpLockoutProofs.CodeWorksOnce | backend/src/server/services/otpService.ts:516-518 | over any run from any state a row yields a success at most once for each time it is stored |
| OtpLockoutProofs.SuccessIsOfLatestCode | backend/src/server/services/otpService.ts:330-518 | every success is a right guess at the latest general code, at most five minutes after it was asked for |
| OtpLockoutProofs.CodeIsMissedAtMostFive | backend/src/server/services/otpService.ts:391-397 | however often it is tried, a code is missed at most five times in all, and its attempts are its misses |
| OtpLockoutProofs.AnswersExactly | backend/src/server/services/otpService.ts:330-536 | each answer is given if and only if it is true; success, in particular, exactly for a right guess at the open general code, in time, unlocked and missed fewer than five times |
| OtpLockoutProofs.VerificationWrites | backend/src/server/services/otpService.ts:391-536 | what each answer writes: success removes the row and clears the account, a miss counts and may lock, all else writes nothing |
| OtpLockoutProofs.StoringClosesItsScope | backend/src/server/services/otpService.ts:271-325 | storing a code closes exactly the open rows of its action |
| OtpLockoutProofs.CleanupKeepsExactlyTheLive | backend/src/server/services/otpService.ts:538-544 | a row survives, unchanged, if and only if its lifetime is not over, and no answer changes but that an expired code was found |
| OtpLockoutProofs.LockNeverShrinks | backend/src/server/services/otpService.ts:350-520 | between successes the lock only gets longer |
| OtpLockoutProofs.LockHoldsToItsEnd | backend/src/server/services/otpService.ts:362-373 | until the lock ends nothing is verified or counted, whatever is called |
| OtpLockoutProofs.DayLockLastsADay | backend/src/server/services/otpService.ts:330-536 | after a 24-hour lock nothing is verified or counted for 24 hours |
| OtpLockoutProofs.AtMostSeventeenFailuresAnHour | backend/src/server/services/otpService.ts:396-420 | any closed hour without a success or a 24-hour lock holds at most 17 counted failures |
| OtpLockoutProofs.SeventeenIsReached | backend/src/server/services/otpService.ts:396-420 | a run from a fresh user reaches 17 |
| OtpService.Service.StoreOtp | backend/src/server/services/otpService.ts:254-328 | at most three tries, exactly one commit takes effect or none; the call throws with nothing stored, or with the row stored when marking the user fails |
| OtpService.Service.VerifyOtp | backend/src/server/services/otpService.ts:330-536 | in place gives the state and the answer of the machine's step |
| OtpService.Service.CleanupExpired | backend/src/server/services/otpService.ts:538-544 | in place does what the machine's step does, and returns how many rows went |
| OtpStores.StoresAgree | backend/src/server/services/otpService.ts:271-302 | the two models of the shared table of codes agree on what storing one does, and it leaves other users' rows alone |
| RateLimiter.StatusPredictsExactlyWhen | backend/src/lib/rate-limiter.ts:20-90 | the status predicts a consume at the same instant if and only if the limit is positive or a window is open |
| RateLimiter.StatusForetells | backend/src/lib/rate-limiter.ts:20-90 | `remaining` is how many further calls at that instant are admitted, and the window lasts exactly `resetMs` longer |
| RateLimiter.CountIsCalls | backend/src/lib/rate-limiter.ts:55-90 | a window's count is the number of its calls, and it gives way to the next only when its time is over |
| RateLimiter.WindowAdmitsTheLimit | backend/src/lib/rate-limiter.ts:55-90 | of the calls under a key with limit L or a lower one, no window admits more than L, whatever other limits share the key |
| RateLimiter.IntervalAdmitsBelowTwiceTheLimit | backend/src/lib/rate-limiter.ts:55-90 | of the same calls, any closed interval of the window's length admits at most 2 * L - 1 |
| RateLimiter.IntervalCapIsReached | backend/src/lib/rate-limiter.ts:55-90 | for every positive limit a run reaches that bound |
| RateLimiter.KeysAreIndependent | backend/src/lib/rate-limiter.ts:55-90 | in a run mixed with other keys' calls, a key's calls up to any limit are admitted in any interval exactly as if the key's calls were the only ones |
| RateLimiter.Limiter.Consume | backend/src/lib/rate-limiter.ts:55-90 | opens a window or counts in place, leaving other keys alone |
| RateLimiter.Limiter.StatusForKey | backend/src/lib/rate-limiter.ts:20-53 | reports without changing the store |
| SponsorMutexProofs.OneBuilderAtATime | backend/src/lib/stellar/transaction_builder.ts:18-73 | at most one builder inside, grants in arrival order, nobody waits for a lock that no one holds |
| SponsorMutexProofs.HolderCanMove | backend/src/lib/stellar/transaction_builder.ts:18-73 | while anyone waits, the holder has a step to take |
| SponsorMutexProofs.WaiterIsServed | backend/src/lib/stellar/transaction_builder.ts:28-35 | the waiter at position k has the lock after at most k + 1 releases |
| SponsorMutexProofs.RunIsFair | backend/src/lib/stellar/trustline_service.ts:44-61 | the arrival-order invariant behind these, over every run |
| SponsorMutexProofs.LoadsExactlyAfterFailure | backend/src/lib/stellar/trustline_service.ts:138-177 | in every run a builder loads the account if and only if told to refresh or the last section did not end in a signed envelope |
| SponsorMutexProofs.EnvelopesContinueTheirLoad | backend/src/lib/stellar/trustline_service.ts:139-177 | envelopes built between two account loads carry consecutive numbers, the first following the number loaded |
| SponsorMutexProofs.SameLoadIsConsecutive | backend/src/lib/stellar/transaction_builder.ts:46-73 | envelopes of one load are numbered by their distance |
| SponsorMutexProofs.IncreasingExactlyWhenLoadsCatchUp | backend/src/lib/stellar/trustline_service.ts:139-177 | over all loads of a run the numbers strictly increase if and only if no load that is built on returned less than the last number issued |
| SponsorMutexProofs.StaleLoadRepeatsNumber | backend/src/lib/stellar/trustline_service.ts:141-144 | two refreshing builders whose loads both return 5 both build number 6 |
| SponsorService.Service.Lock | backend/src/lib/stellar/transaction_builder.ts:18-26 | takes the free lock or joins the end of the queue, in place |
| SponsorService.Service.Unlock | backend/src/lib/stellar/transaction_builder.ts:28-35 | hands over to the first waiter without releasing, or releases |
| SponsorService.Service.BuildAndUnlock | backend/src/lib/stellar/trustline_service.ts:139-177 | numbers the envelope and hands over, or drops the account and hands over |
| SponsorService.Service.Resume | backend/src/lib/stellar/trustline_service.ts:138-143 | in place does what the machine's step does |
| FlightProofs.OneFetchPerKey | backend/src/lib/services/defindex_service.ts:281-312 | in every run at most one fetch of a key is in flight |
| FlightProofs.ReturnedValuesAreCurrent | backend/src/lib/services/defindex_service.ts:262-312 | every value returned is of the same key, from a fetch in flight at the call or stored no longer ago than its own ttl |
| FlightProofs.FetchedValueIsServedExactly | backend/src/lib/services/defindex_service.ts:262-312 | a fetched value is served for exactly its ttl after it arrived, ten seconds by default, until another of the key is stored |
| FlightProofs.CallStarts | backend/src/lib/services/defindex_service.ts:281-312 | a call returns the live cached value at once, starts a fetch if and only if there is none and nothing is pending, and leaves no expired entry behind |
| FlightProofs.AsynchronousCallsStartExactly | backend/src/lib/services/defindex_service.ts:281-312 | from an empty cache, with async fetchers, a call starts a fetch if and only if no live value is cached and no fetch of the key is in flight |
| FlightProofs.StartsFetchExactly | backend/src/lib/services/defindex_service.ts:281-312 | with fetchers of any kind, a third condition: none of the key was ever started that throws at the call instead of returning a promise |
| FlightProofs.StuckExactlyAfterThrow | backend/src/lib/services/defindex_service.ts:298-312 | a key gets stuck exactly by such a fetch of it |
| FlightProofs.StuckForever | backend/src/lib/services/defindex_service.ts:298-312 | a stuck key is not fetched again in any continuation |
| FlightProofs.AsynchronousRunsNeverStick | backend/src/lib/services/defindex_service.ts:298-312 | with asynchronous fetchers no key ever sticks |
| SingleFlightCache.DefindexCache.Get | backend/src/lib/services/defindex_service.ts:262-270 | returns the live value, or drops an expired entry |
| SingleFlightCache.DefindexCache.GetOrFetch | backend/src/lib/services/defindex_service.ts:281-312 | the synchronous part of a call, on the two maps in place, does what the machine's step does |
| SingleFlightCache.DefindexCache.Resolve | backend/src/lib/services/defindex_service.ts:298-308 | stores the value for its ttl and clears the pending entry |
| SingleFlightCache.DefindexCache.Reject | backend/src/lib/services/defindex_service.ts:298-308 | clears the pending entry and stores nothing |
| SeedRedaction.RedactIsWordwise | backend/src/lib/services/telemetry_service.ts:89-110 | the left-to-right scan for the expression is the replacement of whole words that are seeds |
| SeedRedaction.RedactLeavesNoSeed | backend/src/lib/services/telemetry_service.ts:89-110 | no redacted text holds a seed-shaped word |
| SeedRedaction.RedactChangesOnlySeeds | backend/src/lib/services/telemetry_service.ts:89-110 | a text is changed if and only if it holds one |
| LogSanitizerProofs.OutputMatchesInput | backend/src/lib/services/telemetry_service.ts:101-150 | the output is the input unfolded: same keys and order, marks exactly under sensitive keys, texts redacted word by word, all else as it was |
| LogSanitizerProofs.SensitiveKeysAreRedacted | backend/src/lib/services/telemetry_service.ts:94-145 | every property with a sensitive key shows the mark, at any depth |
| LogSanitizerProofs.SensitiveExactly | backend/src/lib/services/telemetry_service.ts:94-95 | a key is sensitive if and only if one of the words stands in it, whatever the letter case |
| LogSanitizerProofs.EntersExactlyTheReachable | backend/src/lib/services/telemetry_service.ts:128-146 | the walk ends on every graph and enters exactly the objects reachable without passing a sensitive key |
| LogSanitizerProofs.EachObjectIsWrittenOnce | backend/src/lib/services/telemetry_service.ts:128-146 | the contents of every reachable object, shared and cyclic ones included, are written out exactly once, and of no other |
| LogSanitizerProofs.MarksAreExtraReferences | backend/src/lib/services/telemetry_service.ts:128-146 | each reachable object is shown by the circular mark exactly once for every reference to it beyond the first |
| LogSanitizerProofs.NoMarkExactlyForTrees | backend/src/lib/services/telemetry_service.ts:128-146 | the output is free of the circular mark if and only if the reachable objects form a tree |
| LogSanitizerProofs.LeaksExactlyRawSeeds | backend/src/lib/services/telemetry_service.ts:101-150 | the output holds a seed if and only if an error name, function text or key that is reached does |
| LogSanitizerProofs.SeedsGetThrough | backend/src/lib/services/telemetry_service.ts:115-149 | every seed gets through as an error's name, as a function's text and as a key |
| LogSanitizerProofs.SecondPassLeavesOnlyKeys | backend/src/lib/services/telemetry_service.ts:228-311 | a payload that contains the output of an earlier pass, at any depth, leaks if and only if a key of that output holds a seed or the payload leaks elsewhere |
| LogSanitizerProofs.FailureLogContainsError | backend/src/lib/services/telemetry_service.ts:296-313 | the payload of a failure log contains its sanitized error, under keys that are not sensitive |
| TelemetrySanitizer.Sanitizer.SanitizeValue | backend/src/lib/services/telemetry_service.ts:101-150 | recursion over the one mutable set of visited objects gives the output and the set of the specification |
| TelemetrySanitizer.Sanitizer.SanitizeAll | backend/src/lib/services/telemetry_service.ts:134-145 | the loop that fills the result does so too |

## Left out

- HTTP handling, headers and status codes, telemetry output, email and SMS, user interface: no state that money or authority depends on.
- XDR building, Soroban simulation, RPC, hashing and signing: foreign calls; their answers are arbitrary, and a code comparison is an arbitrary boolean.
- The token contract: a map of balances with a transfer that refuses negative amounts and missing funds; its own i128 overflow and the lifetime of instance storage are not modelled.
- Signatures for the contracts' own addresses: neither contract invokes itself, so the model has nobody who could sign for them.
- SavingsProofs.PermittedPayoutsAreCovered: the savings contract's user records never expire here, while on the network an archived one must be restored before its payout; the gift records' lifetimes are modelled.
- SponsorMutexProofs.IncreasingExactlyWhenLoadsCatchUp: the model covers one service at a time, while the account builder and the trustline builder cache the same sponsor account separately.
- `upgrade_contract`, events, and the placeholder functions of the yield protocol: no modelled behaviour.
- Other writers of the one-time-code state: the login route that clears `lockUntil`, the tracking of failures per IP address and its alert, the request quotas per phone. Concurrent general verifications are not interleaved: only the action-code endpoint is built for that.
- RateLimiter.WindowAdmitsTheLimit: callers that share a key may differ in their limits but agree on the window, as the routes do.
- `skipCache` and `clear` of the cache: both would break single flight by design.
- Other writers of balances: the webhook and submit routes and the gift release job, which do not take part in the verifier's guards.
- Amounts that the database keeps as doubles are integers here, deposits and withdrawals in one unit.
- VerifierProofs.RunKeepsOneWalletEach: a deposit's transaction is one step; of two that overlap and both find no wallet, the schema's constraint (backend/drizzle/0000_init_repair.sql:123) breaks the second insert off, which is a failing transaction here.
- The runner's `isProcessing` flag, which skips a tick during a sweep of its own process: the theorems hold for any number of overlapping sweeps.
- The service's vault id taken from the environment when the caller gives none: `vaultContractId` is the value after that.
- History columns that do not enter the balance: currency, share price, timestamps and error text.
- FormatUnits with negative `decimals`, and amounts of more digits than a JavaScript string can hold.
- APY estimates in floating point: no exact statement.
- LogSanitizer: an own property named `__proto__` would become the prototype of the output and is modelled as a property like any other; errors have string names, messages and stacks; getters, proxies and duplicate keys do not occur.
