# Staking widget core, modelled in Dafny

This project models the logic under the forms of a liquid-staking web front end. The front end stakes ether, wraps and unwraps stETH, requests withdrawals and shows rewards. The modelled parts are:

- **Token subscriptions** (`shared/hooks/use-balance.ts`). A provider keeps a table from a lower-cased token address to its subscriber count and query key. It grows on subscribe, shrinks on unsubscribe, and turns transfer logs into cache invalidations. Module `TokenSubscriptions`: a class with the table as a field, plus pure functions on the table.
- **Withdrawal request validators** (`validateSplitRequests`, `tvlJokeValidate`). They are modelled as far as their tests determine them. Module `WithdrawalValidators`.
- **Stake form helpers** (`features/stake/stake-form/utils.ts`): the gas-limit padding, the referral resolver and the two error classes. Module `StakeUtils`.
- **Stake form provider** (`stake-form-context.tsx`): the derived network values, the default form values, and the effect that consumes the `ref` and `amount` URL parameters. Module `StakeForm`.
- **The stake callback** (`use-stake.ts`). Module `UseStake`. `StakeRun` is a specification function, built from small phases, giving the sequence of modal events and calls. The imperative method `Stake` records the same trace step by step and is proved equal to it. Ordering facts are lemmas about `StakeRun`.
- **The wrap form** (`wrap-form.tsx`): its state as a class whose setter methods update one field each, with a ghost history of the setter calls. Also the pure memos `inputValueAsBigNumber` and `willWrapSteth`. Module `WrapForm`.
- **The unwrap resolver** (`unwrap-form-validators.tsx`). Module `UnwrapValidators`.
- **The share URL** (`CopyAddressUrl.tsx`). This includes JavaScript's `split` for a one-character separator, proved to be the unique separator-free decomposition. Module `CopyAddressUrl`.

Calls into the wallet, the RPC provider, the contracts and the shared validators are not modelled. Each one becomes an input: either the outcome the call has (a value or a throw), or a function parameter such as `isAddress`, `parseEther`, `formatEther` or `getBasedHashHref`. BigNumbers are unbounded integers. `Wrappers` holds `Option`, `Result` and `Outcome` (pass, or fail with an error).

## Model

| member | source | states |
|---|---|---|
| TokenSubscriptions.ToLower | shared/hooks/use-balance.ts:148 | the key keeps the address's length and lower-cases each character |
| TokenSubscriptions.ToLowerIsLower | shared/hooks/use-balance.ts:148 | every key the table is indexed by is already lower case |
| TokenSubscriptions.Subscribed | shared/hooks/use-balance.ts:146-158 | subscribing adds the lower-cased key with the new query key; an absent key gets count 1; a present key keeps its count unchanged (the line-155 precedence, see Findings); other entries are untouched |
| TokenSubscriptions.Unsubscribed | shared/hooks/use-balance.ts:161-178 | an absent key leaves the table as it is; the key survives only if its count was above 1, and then it is decremented with its query key kept; other entries are untouched |
| TokenSubscriptions.SubscribedWellFormed | shared/hooks/use-balance.ts:146-158 | subscribing keeps every key lower case and every count positive |
| TokenSubscriptions.UnsubscribedWellFormed | shared/hooks/use-balance.ts:161-178 | unsubscribing keeps the same table invariant |
| TokenSubscriptions.CountsStayAtOne | shared/hooks/use-balance.ts:146-178 | with the code as written, every count stays 1 however subscribes and unsubscribes interleave |
| TokenSubscriptions.SharedEntryDroppedEarly | shared/hooks/use-balance.ts:155 | two subscribers of one token, then one unsubscribe, and the entry is gone |
| TokenSubscriptions.SubscribeUnsubscribeRestores | shared/hooks/use-balance.ts:146-178 | a fresh subscribe followed by its unsubscribe restores the table |
| TokenSubscriptions.SubscribedCounted | shared/hooks/use-balance.ts:146-158 | the evidently intended update: the count becomes the old count (or 0) plus one, with the new query key; other entries untouched |
| TokenSubscriptions.SubscribedCountedWellFormed | shared/hooks/use-balance.ts:146-158 | the corrected subscribe keeps the table invariant |
| TokenSubscriptions.CaseVariantsShareEntry | shared/hooks/use-balance.ts:148-155 | with the update as written, two spellings of one address share one entry; its count is the old count, or 1 for a new entry, so the second subscribe does not raise it; the later query key wins |
| TokenSubscriptions.CaseVariantsShareCountedEntry | shared/hooks/use-balance.ts:148-155 | with the corrected update, two spellings of one address share one entry, counted twice, and the later query key wins |
| TokenSubscriptions.SubscribeTimesCounts | shared/hooks/use-balance.ts:155 | with the intended update, n subscribes give count n |
| TokenSubscriptions.UnsubscribeTimesCounts | shared/hooks/use-balance.ts:165-172 | j unsubscribes below the count lower it by j |
| TokenSubscriptions.CountedRoundTrip | shared/hooks/use-balance.ts:146-178 | with the intended update, the entry survives each of the first n-1 of n unsubscribes, and all n restore the table |
| TokenSubscriptions.Invalidations | shared/hooks/use-balance.ts:97-114 | there is at most one invalidation per log |
| TokenSubscriptions.InvalidationsAppend | shared/hooks/use-balance.ts:99-111 | the logs are handled one by one, in order: a batch invalidates what its parts invalidate, concatenated |
| TokenSubscriptions.InvalidationsOfOne | shared/hooks/use-balance.ts:100-110 | a log of a subscribed token invalidates that token's query key; other logs invalidate nothing |
| TokenSubscriptions.InvalidationsSkipUnsubscribed | shared/hooks/use-balance.ts:102 | logs of unsubscribed tokens invalidate nothing |
| TokenSubscriptions.InvalidationsIgnoreCase | shared/hooks/use-balance.ts:101 | the log address is matched case-insensitively |
| TokenSubscriptions.ShouldWatch | shared/hooks/use-balance.ts:116 | events are watched exactly when the address is truthy and some token is subscribed |
| TokenSubscriptions.WatchingAfterSubscribe | shared/hooks/use-balance.ts:116-158 | after a subscribe as written, the table is non-empty, so transfers are watched exactly when an account address is given |
| TokenSubscriptions.WatchingAfterCountedSubscribe | shared/hooks/use-balance.ts:116-158 | the same for the corrected subscribe |
| TokenSubscriptions.NotWatchingAfterLastUnsubscribe | shared/hooks/use-balance.ts:116-178 | removing the last subscriber stops the watch |
| TokenSubscriptions.MergedAccount | shared/hooks/use-balance.ts:227 | `account ?? address`: an explicit account wins, even an empty one |
| TokenSubscriptions.BalanceQueryEnabled | shared/hooks/use-balance.ts:233 | the contract query runs exactly when the merged account is truthy |
| TokenSubscriptions.TokenTransferSubscription.constructor | shared/hooks/use-balance.ts:88-90 | the table starts empty |
| TokenSubscriptions.TokenTransferSubscription.Subscribe | shared/hooks/use-balance.ts:146-158 | returns the lower-cased key; the table becomes `Subscribed` of the old one, the update as written (see Findings) |
| TokenSubscriptions.TokenTransferSubscription.Unsubscribe | shared/hooks/use-balance.ts:161-178 | the table becomes `Unsubscribed` of the old one |
| TokenSubscriptions.TokenTransferSubscription.OnLogs | shared/hooks/use-balance.ts:97-114 | the loop invalidates exactly `Invalidations` of the logs and leaves the table unchanged |
| WithdrawalValidators.SumRepeat | features/withdrawals/request/request-form-context/__tests__/validators.test.ts:83-95 | n requests of size x sum to n·x |
| WithdrawalValidators.ValidateSplitRequests | features/withdrawals/request/request-form-context/__tests__/validators.test.ts:44-137 | for a valid configuration, the split succeeds exactly when the count fits and the leftover is 0 or at least the minimum; then it yields that many requests, all full but the last, the last within bounds, summing to the amount; too many requests fail with the request count; every failure is a split-request error on the field |
| WithdrawalValidators.SplitDetermined | features/withdrawals/request/request-form-context/__tests__/validators.test.ts:44-95 | a split is determined by its length: full requests then the remainder |
| WithdrawalValidators.SplitIntoOneRequest | features/withdrawals/request/request-form-context/__tests__/validators.test.ts:45-55 | an amount between the minimum and the maximum is one request of itself |
| WithdrawalValidators.SplitIntoTwoRequests | features/withdrawals/request/request-form-context/__tests__/validators.test.ts:57-81 | max plus a remainder of at least the minimum makes two requests: max, then the remainder |
| WithdrawalValidators.SplitIntoMaxRequests | features/withdrawals/request/request-form-context/__tests__/validators.test.ts:83-95 | max times the request limit makes exactly that many full requests |
| WithdrawalValidators.SplitTooManyRequests | features/withdrawals/request/request-form-context/__tests__/validators.test.ts:97-117 | one wei more fails with request count limit + 1 |
| WithdrawalValidators.SplitLeftoverTooSmall | features/withdrawals/request/request-form-context/__tests__/validators.test.ts:119-137 | a leftover below the minimum fails with a split-request error on the field |
| WithdrawalValidators.TvlJokeValidate | features/withdrawals/request/request-form-context/__tests__/validators.test.ts:16-38 | an amount below the TVL passes; one above fails with `balanceDiffSteth` equal to amount minus balance |
| WithdrawalValidators.TvlJokeTests | features/withdrawals/request/request-form-context/__tests__/validators.test.ts:17-38 | the two tests' inputs give the tested outcomes |
| StakeUtils.ApplyGasLimitRatio | features/stake/stake-form/utils.ts:8-9 | defined exactly when PRECISION is nonzero; then the result is the floor of gasLimit·RATIO·PRECISION / PRECISION |
| StakeUtils.GasLimitRatioOfZero | features/stake/stake-form/utils.ts:8-9 | a zero estimate stays zero |
| StakeUtils.GasLimitRatioMonotone | features/stake/stake-form/utils.ts:8-9 | a larger estimate gives a padded limit at least as large |
| StakeUtils.GasLimitRatioPads | features/stake/stake-form/utils.ts:8-9 | a ratio of at least one never lowers the estimate |
| StakeUtils.GasLimitRatioIdentity | features/stake/stake-form/utils.ts:8-9 | a ratio of exactly one returns the estimate |
| StakeUtils.Message | features/stake/stake-form/utils.ts:25-40 | `ReferralAddressError` carries the INVALID_REFERRAL message; the mock error carries its argument |
| StakeUtils.Reason | features/stake/stake-form/utils.ts:25-40 | the reasons are the INVALID_REFERRAL and STAKE_LIMIT revert strings |
| StakeUtils.ReasonsDistinguishErrors | features/stake/stake-form/utils.ts:25-40 | the two reasons differ |
| StakeUtils.GetAddress | features/stake/stake-form/utils.ts:11-23 | an address is returned as is; otherwise a truthy resolved name is returned; otherwise (null, empty or a throwing resolver) it fails with `ReferralAddressError`, in both directions |
| StakeUtils.GetAddressIgnoresResolver | features/stake/stake-form/utils.ts:15 | a literal address never depends on the resolver |
| StakeForm.GasCost | features/stake/stake-form/stake-form-context/stake-form-context.tsx:67-70 | defined exactly when both inputs are loaded, as their product |
| StakeForm.StakeableEther | features/stake/stake-form/stake-form-context/stake-form-context.tsx:83-94 | the balance, capped by the current limit when a limit is set: at most both, and equal to one of them |
| StakeForm.Multisig | features/stake/stake-form/stake-form-context/stake-form-context.tsx:99-102 | the flag is hidden while loading; padding happens only for an ordinary account; the max amount waits for the check |
| StakeForm.DefaultValues | features/stake/stake-form/stake-form-context/stake-form-context.tsx:157-161 | amount and referral start null |
| StakeForm.Rest | features/stake/stake-form/stake-form-context/stake-form-context.tsx:173 | the query without `amount` and `ref`, every other parameter kept |
| StakeForm.QueryEffects | features/stake/stake-form/stake-form-context/stake-form-context.tsx:170-185 | nothing before the router is ready; a string `ref` sets the referral first; a string `amount` replaces the route with the rest, then sets the parsed amount last; a parse failure stops there |
| StakeForm.ConsumedFromDefaults | features/stake/stake-form/stake-form-context/stake-form-context.tsx:157-185 | starting from the defaults, the form ends with the `ref` string and the parsed amount, each when present |
| StakeForm.ParseFailureKeepsEarlierEffects | features/stake/stake-form/stake-form-context/stake-form-context.tsx:172-184 | a failing parse keeps the referral and the route replacement that came before |
| StakeForm.ConsumeQuery | features/stake/stake-form/stake-form-context/stake-form-context.tsx:170-185 | the effect issues exactly `QueryEffects` |
| UseStake.MissingInput | features/stake/stake-form/use-stake.ts:36-40 | no message exactly when the amount is present and chain id, account, provider and contract are all truthy; a missing amount is reported first |
| UseStake.ReferralAddress | features/stake/stake-form/use-stake.ts:58-60 | a null or empty referral gives the fallback address; otherwise `getAddress`, whose only failure is `ReferralAddressError` |
| UseStake.Fail | features/stake/stake-form/use-stake.ts:122-129 | the catch-all appends one error event and returns false |
| UseStake.OrderedSnoc | features/stake/stake-form/use-stake.ts:110-121 | a step appended where it may come (a wait right after `block`, with `onConfirm` a success right after it) keeps the ordering invariant |
| UseStake.OrderedAppend | features/stake/stake-form/use-stake.ts:110-121 | appending anything but a wait or a success keeps the ordering invariant |
| UseStake.FailFacts | features/stake/stake-form/use-stake.ts:122-129 | the catch-all keeps the trace ordered and adds only the error, no send, submission or signing |
| UseStake.SucceedFacts | features/stake/stake-form/use-stake.ts:117-121 | `success` after `onConfirm` (or with none given) ends a run that reports once and stays ordered |
| UseStake.Finish | features/stake/stake-form/use-stake.ts:117-129 | a throwing `onConfirm` ends the run with its error and false; otherwise the trace gains `onConfirm` (when given) and then `success`, and the run returns true; it sends nothing |
| UseStake.Confirm | features/stake/stake-form/use-stake.ts:110-129 | a bare hash goes straight to `Finish`; a transaction object dispatches `block` with its hash, and a throwing wait then ends the run with its error; the run returns true exactly when the wait (for an object) and `onConfirm` (when given) return; nothing is submitted or sent here |
| UseStake.WaitThenFinish | features/stake/stake-form/use-stake.ts:112-129 | the wait follows `block`; a throwing wait ends the run with its error, a returning one is recorded next; the run returns true exactly when the wait and `onConfirm` (when given) return |
| UseStake.SendMultisig | features/stake/stake-form/use-stake.ts:69-108 | the multisig branch is exactly: send unchecked with the referral and amount, then `success_multisig`, or the error when the send threw; it returns true exactly when the send returned |
| UseStake.SubmitOrdinary | features/stake/stake-form/use-stake.ts:77-97 | every submission carries the referral, the amount, the fetched fee data and the padded estimate; there is no multisig step and no second `signing`; a throwing fee-data call, a throwing estimate or a zero padding precision ends the run with that error; the run returns true exactly when fee data, estimate, padding, submission, the wait (for a transaction object) and `onConfirm` (when given) all succeed |
| UseStake.FailOrdinary | features/stake/stake-form/use-stake.ts:78-91 | a failure before the submission keeps the ordinary branch's promises |
| UseStake.SubmitAndConfirm | features/stake/stake-form/use-stake.ts:93-129 | the submission is the next step; a throwing submit ends the run with its error right after it; the run returns true exactly when the submit returns and its confirmation passes |
| UseStake.SubmittedOnce | features/stake/stake-form/use-stake.ts:93-96 | a run that submits once and sends nothing afterwards keeps every submission padded |
| UseStake.SignAndConfirm | features/stake/stake-form/use-stake.ts:68-121 | a multisig account takes `SendMultisig`, an ordinary one `SubmitOrdinary`, each continuing the trace so far |
| UseStake.StakeRun | features/stake/stake-form/use-stake.ts:34-129 | every run reports exactly once, at its last step (success iff it returns true, error iff false), and keeps the ordering invariant |
| UseStake.StartComesFirst | features/stake/stake-form/use-stake.ts:36-47 | missing inputs give a single error and no `start`; otherwise `start` (CONTRACT, ETH, amount) comes first |
| UseStake.StoppedBeforeSigning | features/stake/stake-form/use-stake.ts:36-61 | a run that fails a check before signing holds at most `start` and the error |
| UseStake.SignedOutcome | features/stake/stake-form/use-stake.ts:68-129 | once `signing` is dispatched, the run returns true exactly when every later call succeeds: the multisig send for a contract wallet; otherwise fee data, estimate, padding, submission, the wait for a transaction object and `onConfirm` when given |
| UseStake.ReachedSigning | features/stake/stake-form/use-stake.ts:42-68 | a run past the checks is `start`, `signing`, then the signing callback with the resolved referral and the multisig flag |
| UseStake.SigningAfterChecks | features/stake/stake-form/use-stake.ts:49-66 | `signing` is dispatched only as the second step and only when the mock-limit check, the multisig check and the referral resolution passed; it is dispatched whenever they all pass |
| UseStake.EarlyFailures | features/stake/stake-form/use-stake.ts:49-61 | the mock limit and a bad referral end the run right after `start` with `MockLimitReachedError` and `ReferralAddressError` |
| UseStake.MultisigTrace | features/stake/stake-form/use-stake.ts:69-76 | the multisig happy path is start, signing, send unchecked, `success_multisig`, returning true |
| UseStake.OrdinaryAccountTrace | features/stake/stake-form/use-stake.ts:77-121 | the ordinary happy path is start, signing, submit with the padded gas limit, block, wait, onConfirm, success, returning true |
| UseStake.SubmissionsPadded | features/stake/stake-form/use-stake.ts:78-96 | any submission happens only for a non-contract account past the checks, with the padded estimate |
| UseStake.MultisigSuccessOnlyForContracts | features/stake/stake-form/use-stake.ts:105-108 | `success_multisig` only if the multisig check said contract |
| UseStake.Stake | features/stake/stake-form/use-stake.ts:34-129 | the callback's recorded steps and result are exactly `StakeRun` |
| WrapForm.InitialState | features/wrap/features/wrap-form/wrap-form.tsx:42-53 | stETH selected, stage SUCCESS, operation STAKING, modal closed, empty input, no hash, no failed text |
| WrapForm.InputValueAsBigNumber | features/wrap/features/wrap-form/wrap-form.tsx:55-61 | an empty or unparseable input gives 0; otherwise the parsed amount |
| WrapForm.WillWrapSteth | features/wrap/features/wrap-form/wrap-form.tsx:149-155 | 0 while stETH needs approval, otherwise the input amount |
| WrapForm.ApproveChanges | features/wrap/features/wrap-form/wrap-form.tsx:98-99 | every run starts by setting SIGN and opening the modal |
| WrapForm.ApproveSignsOnceFailsOnThrow | features/wrap/features/wrap-form/wrap-form.tsx:96-131 | SIGN is set first and never again; FAIL is set iff the callback or the wait threw |
| WrapForm.ApproveBlocksBeforeWait | features/wrap/features/wrap-form/wrap-form.tsx:112-121 | BLOCK is set iff the result is a transaction object of an ordinary account; the wait happens iff it also succeeds, right after the hash, BLOCK and the opened modal |
| WrapForm.ApproveMultisigEndsIdle | features/wrap/features/wrap-form/wrap-form.tsx:106-110 | a multisig wallet never reaches SUCCESS and ends by going IDLE and closing the modal |
| WrapForm.ReplayAppend | features/wrap/features/wrap-form/wrap-form.tsx:96-131 | replaying updates in two batches is replaying them in one |
| WrapForm.ApproveFinal | features/wrap/features/wrap-form/wrap-form.tsx:96-131 | the token, input, wrapping amount and operation are untouched |
| WrapForm.ApproveReplayed | features/wrap/features/wrap-form/wrap-form.tsx:96-131 | replaying the setter calls leaves the promised final state: IDLE and closed for a multisig; the hash recorded for a transaction object; SUCCESS and open when done; FAIL, open and the message on a throw |
| WrapForm.WrapFormComponent.constructor | features/wrap/features/wrap-form/wrap-form.tsx:42-53 | the fields start at `InitialState` with an empty history |
| WrapForm.WrapFormComponent.OpenTxModal | features/wrap/features/wrap-form/wrap-form.tsx:83-85 | opens the modal and changes nothing else |
| WrapForm.WrapFormComponent.CloseTxModal | features/wrap/features/wrap-form/wrap-form.tsx:87-89 | closes the modal and changes nothing else |
| WrapForm.WrapFormComponent.Fail | features/wrap/features/wrap-form/wrap-form.tsx:127-131 | sets the failed text, then FAIL, then opens the modal |
| WrapForm.WrapFormComponent.ApproveWrapper | features/wrap/features/wrap-form/wrap-form.tsx:93-134 | makes exactly the setter calls of `ApproveChanges`, in order, and leaves the state `ApproveFinal` |
| UnwrapValidators.MessageMaxAmount | features/wsteth/unwrap/unwrap-form-context/unwrap-form-validators.tsx:16-19 | the message is the fixed prefix, the wstETH display name, the fixed middle and the formatted maximum, in that order |
| UnwrapValidators.MessageMaxAmountDeterminesBalance | features/wsteth/unwrap/unwrap-form-context/unwrap-form-validators.tsx:16-19 | equal messages embed equal formatted balances |
| UnwrapValidators.Resolve | features/wsteth/unwrap/unwrap-form-context/unwrap-form-validators.tsx:21-65 | handled errors always name the UnwrapForm form and the dummy field; returned values are the input values |
| UnwrapValidators.MissingContextHandled | features/wsteth/unwrap/unwrap-form-context/unwrap-form-validators.tsx:27-30 | a missing context promise reaches the error handler through the first invariant |
| UnwrapValidators.AmountCheckComesFirst | features/wsteth/unwrap/unwrap-form-context/unwrap-form-validators.tsx:32-37 | the amount check's error is reported whatever the context settles to |
| UnwrapValidators.WalletStateDecides | features/wsteth/unwrap/unwrap-form-context/unwrap-form-validators.tsx:34-64 | a rejected context is handled; an inactive wallet returns the "wallet is not connected" error on the dummy field; an active wallet without a maximum fails the second invariant; otherwise the max check, given the max message, decides between no errors and a handled error |
| UnwrapValidators.CleanExactlyWhenChecksPass | features/wsteth/unwrap/unwrap-form-context/unwrap-form-validators.tsx:39-57 | no errors exactly when the context resolved to an active wallet with a maximum and both checks passed |
| CopyAddressUrl.Split | features/rewards/components/CopyAddressUrl.tsx:14-15 | `split` gives at least one piece, none holds the separator, and they join back to the string |
| CopyAddressUrl.SplitUnique | features/rewards/components/CopyAddressUrl.tsx:14-15 | any separator-free pieces that join to the string are its split |
| CopyAddressUrl.SplitHasSecondPiece | features/rewards/components/CopyAddressUrl.tsx:15 | a second piece exists exactly when the separator occurs |
| CopyAddressUrl.FirstPieceCuts | features/rewards/components/CopyAddressUrl.tsx:14 | the first piece is the longest separator-free prefix |
| CopyAddressUrl.CutTwice | features/rewards/components/CopyAddressUrl.tsx:14 | cutting at '?' and then at '#' is cutting at the first of either |
| CopyAddressUrl.ShareUrl | features/rewards/components/CopyAddressUrl.tsx:13-24 | fails with a TypeError exactly in IPFS mode without a '#' |
| CopyAddressUrl.HostedUrl | features/rewards/components/CopyAddressUrl.tsx:20-24 | hosted mode: the part of `href` before its first '?', then `?address=` and the address; that part has no '?' |
| CopyAddressUrl.IpfsUrl | features/rewards/components/CopyAddressUrl.tsx:13-19 | IPFS mode: `href` up to its first '?' or '#', then `getBasedHashHref` of the text after the first '#' up to the next '#' or '?' |

## Left out

- I/O and frameworks. React rendering, React Query and wagmi fetching, `useWatchContractEvent`, the per-block balance refetch and `useTokenBalance`'s effect are not modelled. An invalidation is a returned query key.
- Calls into code that is not part of this model become inputs:
  - the wallet, the RPC provider and the contracts (as outcomes);
  - `isContract`, `resolveName`, `getFeeData`, `estimateGas` and `submit`, `sendUncheckedTransaction` and `transaction.wait`;
  - `parseEther`, `formatEther`, `getTokenDisplayName` and `getBasedHashHref`;
  - `validateEtherAmount` and `validateBignumberMax`, each given as the outcome it has.
- Logging and error messages. `runWithTransactionLogger` is transparent. `getErrorMessage` is represented by the error itself (stake flow) or by the message it produced (wrap form). `handleResolverValidationError` is represented by the error and the two names it is given.
- Timing. `awaitWithTimeout` with its timeout is modelled as a context promise that resolves or rejects. The ordering between concurrent promises is not modelled.
- WithdrawalValidators: `validators.ts` is not part of this model. The validators are modelled from their tests. Two outcomes the tests leave open are parameters, not guesses: the request count reported for a too-small leftover, and the result for an amount below the minimum or an invalid configuration. So is the TVL check's outcome at exactly the TVL.
- StakeUtils.ApplyGasLimitRatio: `RATIO * PRECISION` is a floating-point product in the source. It is an integer input here.
- UseStake.Stake: in `Promise.all` both calls start together. When both reject, the model reports the `isContract` failure, although the first rejection to settle wins.
- The stake form's `revalidate` (a `Promise.allSettled` over refetches) and `useTokenMaxAmount` are not modelled. `revalidate` is the `onConfirm` oracle of the stake flow.
- TokenSubscriptions.ToLower: lower-cases ASCII letters only. Addresses are hexadecimal.
- TokenSubscriptions.Unsubscribed: `delete old[tokenAddress]` also mutates the previous state object in place before copying. The model works on values, so this aliasing is not captured.
- WrapForm: React batches the setter calls of one tick. The model applies them one by one, in order. The transaction-operation enum distinguishes only STAKING, the one value this component names. The gas-cost display, which uses floating point, is not modelled.
- StakeForm.QueryEffects: `router.replace` is issued and not awaited. Only its place in the order is modelled.

## Findings

| source | as written | input that shows it | evidently intended | confidence | as-written member | corrected member |
|---|---|---|---|---|---|---|
| shared/hooks/use-balance.ts:155 | `existing?.subscribers ?? 0 + 1` parses as `existing?.subscribers ?? (0 + 1)`, so a second subscriber of a token does not raise the count | subscribe token A twice, then unsubscribe once: the entry is deleted while one subscriber remains, and its transfers no longer invalidate its balance | `(existing?.subscribers ?? 0) + 1`, counting subscribers | not executed | TokenSubscriptions.SharedEntryDroppedEarly | TokenSubscriptions.CountedRoundTrip |

`TokenSubscriptions.Subscribed` models the update as written. `CountsStayAtOne` proves that, as written, every count stays at 1. The corrected updater is `TokenSubscriptions.SubscribedCounted`, and the class `TokenSubscriptions.TokenTransferSubscription` follows the code as written (`Subscribed`). With it, `CountedRoundTrip` proves that n subscribes need n unsubscribes before the entry goes away.
