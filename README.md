# Temp-transactions reconciliation, modelled in Dafny

This project models the reconciliation step of a Stellar anchor: the
`TempTransactionsProcessor` worker. The worker takes one job `(type, asset,
hash)` that names a chain transaction and scans the transaction's outputs
that go to the anchor. For each output, in order, it:

1. resolves the address mapping and the account status (withdrawals are
   taken as existing and trusted; deposits query the Stellar account);
2. computes the fee and takes the USD rate (0 when the rate is missing);
3. decides whether the output is final;
4. reuses the ledger record filed under the output's dedup key
   `(txIn, txInIndex)`, or builds a new record with the amounts fixed;
5. recomputes the record's state (limit violation first, then trust, then
   finality) and saves it;
6. deletes the job's staging marker;
7. enqueues a one-transaction forwarding job when the output is trusted,
   final and not batched.

The job succeeds when every output was final and reports "not final"
otherwise. A 404 error from any call is a benign "not found"; any other
error is rethrown.

Modules:

- `Wrappers`: `Option` and `Result`.
- `Decimal`: base-10 rendering of the inbound memo (`toString(10)`) and its
  round trip.
- `Transactions`: the entities: job, output, mapping, account status, the
  ledger record and its dedup key, the forwarding payload, errors and job
  outcomes.
- `Policy`: the pure helpers:
  - `calculateFee` as `CalculateFee` (lines 124-136), `checkLimits` as
    `CheckLimits` (lines 143-152) and `batching` as `Batching` (lines 138-141);
  - the state decision;
  - the forwarding condition;
  - the rate fallback.
- `Reconcile`: the reference definition of one output step (`ProcessOutput`,
  lines 48-99), of the output loop (`RunOutputs`, lines 45-101) and of one
  job (`ProcessJob`, the whole of `process`, lines 35-117). It works
  over the three stores:
  - the ledger, a map from dedup key to record;
  - the forwarding queue, a sequence of payloads;
  - the staging store, a set of `(asset, hash)` markers.
- `Properties`, `RunProperties` and `JobProperties`: what one output, the
  loop and a whole job do to the stores and to the outcome.
- `Redelivery`: what happens when the same job runs a second time.
- `Processor`: the worker as a class. Its fields are the ledger, the queue
  and the staging store. Its `Process` method loops over the outputs and
  updates the stores step by step; it is proved to end in the state, and
  with the outcome, that `ProcessJob` gives.

The foreign calls are fields of a `Services` value that the model only
queries:

- the wallet scan and `isFinalYet`;
- the mapping lookup;
- the Stellar account query;
- the rates lookup;
- the per-asset configuration.

The wallet scan, the mapping lookup, the account query and the rates lookup
may fail with an error that carries an optional HTTP-like status.
`isFinalYet` and the configuration always answer.

Behaviour of the code that the model keeps on purpose:

- **State is not sticky.** The state is recomputed on every run
  (`src/transactions/temp-transactions.processor.ts:87-89`). A record saved
  as `too_small` becomes `pending_anchor` once the limits pass
  (`Properties.LimitStateNotSticky`). Nothing in the code keeps a limit
  state once the limits pass.
- **A configured bound of 0 is ignored.** The limit check tests `min` and
  `max` for truthiness, so a bound of 0 counts as unconfigured, the same as
  a missing one (`Policy.InForce`).
- **Limit states are forwarded.** The enqueue condition does not look at the
  limits. A trusted, final output is forwarded even when its state is
  `too_small` or `too_large` (`Policy.ForwardedState`).
- **A missing mapping fails at different points.**
  - A deposit needs the mapping for the account query, so a missing mapping
    fails the job even when the record already exists.
  - A withdrawal needs it only to build a new record.
  - Either failure is an error without a status, so it is rethrown.
- **`amountOut` can go negative.** Nothing stops it when the fee exceeds the
  amount (`Policy.AmountOutMayBeNegative`).
- **Redelivery forwards again.** Running the same job again, with every
  service answering as before, leaves the ledger, the staging store and the
  outcome as they were. It appends again every forwarding job the first run
  appended (`Redelivery.RedeliveryIsIdempotentOnLedger`). When the answers
  change, for example a "not final" job redelivered after more
  confirmations, each record already filed still keeps every field but its
  state (`JobProperties.JobKeepsCommittedRecords`).

## Model

| member | source | states |
|---|---|---|
| Decimal.DecimalRoundTrip | src/transactions/temp-transactions.processor.ts:75 | reading back the base-10 rendering of a memo gives the memo |
| Decimal.NatToDecimal | src/transactions/temp-transactions.processor.ts:75 | the base-10 rendering of a number is a non-empty string of digits with no leading zero (only 0 itself renders as "0") |
| Transactions.ExtraToString | src/transactions/temp-transactions.processor.ts:75 | the stored memo is null exactly when the output has none or it is 0; otherwise it is digits with no leading zero that read back as the output's memo |
| Transactions.NewTransaction | src/transactions/temp-transactions.processor.ts:69-85 | a new record is filed under the output's dedup key, with amount in = output value, the given fee, amount out = amount in less fee, the given rate, not refunded, the mapping's outbound address, memo and mapping, the given type, and the output's asset, sender, inbound address and inbound memo rendered by `ExtraToString` |
| Policy.CheckLimits | src/transactions/temp-transactions.processor.ts:143-152 | the limit check yields no state, `too_small` or `too_large`, and nothing else |
| Policy.DecideState | src/transactions/temp-transactions.processor.ts:87-89 | the decision yields a downstream state only when the limit check did |
| Policy.RateFor | src/transactions/temp-transactions.processor.ts:59 | the rate is the listed rate for the asset, or 0 when the asset has none |
| Policy.DepositFee | src/transactions/temp-transactions.processor.ts:124-130 | a deposit's fee is amount × fee_percent + fee_fixed, plus fee_create when funding is needed; the funding flag changes the fee exactly when it is set and fee_create is non-zero |
| Policy.WithdrawalFee | src/transactions/temp-transactions.processor.ts:131-135 | a withdrawal's fee is amount × fee_percent + fee_fixed and does not depend on the funding flag |
| Policy.LimitsOrdered | src/transactions/temp-transactions.processor.ts:143-152 | `too_small` exactly when a minimum is in force and is not met; `too_large` exactly when the minimum check passes and a maximum in force is exceeded; no violation exactly when neither holds |
| Policy.LimitsFollowDirection | src/transactions/temp-transactions.processor.ts:145-148 | the limit check consults only the bounds of the transaction's own direction |
| Policy.BatchingOnlyForConfiguredWithdrawals | src/transactions/temp-transactions.processor.ts:138-141 | batching holds exactly for a withdrawal whose asset has withdrawal batching set, and never for a deposit |
| Policy.StateDecisionTable | src/transactions/temp-transactions.processor.ts:87-89 | a limit violation wins; otherwise `pending_anchor` iff trusted and final, `pending_external` iff trusted and not final, `pending_trust` iff not trusted |
| Policy.TrustedNeverPendingTrust | src/transactions/temp-transactions.processor.ts:54-56 | with trust granted, as for every withdrawal, the state is never `pending_trust` nor a downstream state |
| Policy.ForwardedState | src/transactions/temp-transactions.processor.ts:87-99 | a forwarded transaction's state is `pending_anchor`, `too_small` or `too_large`, and `pending_anchor` when no limit is violated |
| Policy.DepositFeeExample | src/transactions/temp-transactions.processor.ts:124-130 | 100 at 2% plus 1 fixed plus 5 creation gives fee 8 and amount out 92; without funding the fee is 3 |
| Policy.AmountOutMayBeNegative | src/transactions/temp-transactions.processor.ts:81 | with a fixed fee of 1 and no bounds configured, an output of 0.5 passes the limit check and its amount out is negative |
| Reconcile.Observe | src/transactions/temp-transactions.processor.ts:49-56 | a failed mapping lookup fails the observation with the lookup's error; a withdrawal whose mapping lookup succeeds is observed as existing and trusted without the account query; a successful observation carries the looked-up mapping; a deposit succeeds only with a mapping, and then succeeds exactly when the account query on the mapping's outbound address, with the asset's issuer, succeeds, taking that query's status or failing with its error |
| Reconcile.Classify | src/transactions/temp-transactions.processor.ts:109-116 | an error is "not found" exactly when its status is 404 and is rethrown otherwise; the error is kept |
| Properties.ReusedRecordKeepsFields | src/transactions/temp-transactions.processor.ts:63-91 | an output whose key is already filed succeeds; the save keeps the key set, changes only that record's state (to the recomputed state) and leaves every other record as it was |
| Properties.StepKeepsFields | src/transactions/temp-transactions.processor.ts:69-91 | a processed output writes only its own key; every existing record keeps all fields but its state |
| Properties.FirstSightingBuildsRecord | src/transactions/temp-transactions.processor.ts:69-85 | a first sighting succeeds exactly when the mapping exists; it adds exactly one key, holding a record of the job's type and the output's asset with amount in, fee, amount out = in less fee, rate (0 when missing), not refunded, the mapping and the recomputed state |
| Properties.ForwardingRule | src/transactions/temp-transactions.processor.ts:92-99 | exactly one job holding the saved record is appended when trusted, final and not batched, none otherwise; the job's staging marker is removed either way |
| Properties.LimitStateNotSticky | src/transactions/temp-transactions.processor.ts:87-89 | a record saved as `too_small` becomes `pending_anchor` once the limits pass and the output is trusted and final |
| Properties.ObserveFailureFailsOutput | src/transactions/temp-transactions.processor.ts:49-56 | an output whose mapping lookup or account query fails fails with exactly that error, before the ledger or any store is touched |
| Properties.DepositNeedsMapping | src/transactions/temp-transactions.processor.ts:54-56 | a deposit output without a mapping fails with the status-less dereference error |
| Properties.WithdrawalNeedsMappingOnlyForNewRecords | src/transactions/temp-transactions.processor.ts:69-76 | a withdrawal output without a mapping succeeds exactly when its record already exists, and fails with the status-less error otherwise |
| Properties.WithdrawalOutputNotPendingTrust | src/transactions/temp-transactions.processor.ts:54-89 | a processed withdrawal output's record is never `pending_trust` |
| RunProperties.RunKeepsCommittedRecords | src/transactions/temp-transactions.processor.ts:48-100 | over the loop, existing records survive with at most their state changed; records no output names are untouched; no key appears that no output names |
| RunProperties.RunKeepsWellKeyed | src/transactions/temp-transactions.processor.ts:63-91 | every record stays filed under its own dedup key, so no key holds a second record |
| RunProperties.RunFilesEveryOutput | src/transactions/temp-transactions.processor.ts:48-91 | a loop that ran to the end has filed exactly the old keys plus every output's key |
| RunProperties.StepCreates | src/transactions/temp-transactions.processor.ts:69-85 | an output filing a new key builds its record from that output: its amount, its fee, amount less fee, the rate snapshot, not refunded |
| RunProperties.RunNewRecords | src/transactions/temp-transactions.processor.ts:48-100 | every record the loop creates was built from one of the job's outputs, as above |
| RunProperties.RunAllFinal | src/transactions/temp-transactions.processor.ts:45-61 | the loop's verdict is the conjunction of every output's finality |
| RunProperties.RunQueue | src/transactions/temp-transactions.processor.ts:94-99 | the loop only appends to the queue, at most one job per output, each a single transaction that is settlement-ready or carries a limit violation |
| RunProperties.RunStaging | src/transactions/temp-transactions.processor.ts:92 | the loop removes at most this job's staging marker, removes it when it ran to the end over at least one output, and a job without outputs changes no store |
| RunProperties.RunWithdrawalNeverPendingTrust | src/transactions/temp-transactions.processor.ts:54-89 | after a withdrawal loop that ran to the end, every output's record is filed and none is `pending_trust` |
| RunProperties.RunIgnoresAccountCheck | src/transactions/temp-transactions.processor.ts:54-56 | a withdrawal loop gives the same stores and verdict whatever the account query would answer |
| RunProperties.StoppedAt | src/transactions/temp-transactions.processor.ts:48-116 | a loop that stopped did so at some output, with the stores the outputs before it left and that output's error |
| RunProperties.StaysStopped | src/transactions/temp-transactions.processor.ts:48-116 | once an output fails, the loop stops with the stores before it and that error; later outputs do not matter |
| RunProperties.RunExtends | src/transactions/temp-transactions.processor.ts:48-61 | one more output processed without error extends the running loop with the new stores and the verdict conjoined with its finality |
| JobProperties.JobOutcome | src/transactions/temp-transactions.processor.ts:102-116 | a job completes iff scan, rates and every output succeeded and every output is final; it is "not final" iff all succeeded and some output is not final; "not found" only for status 404, rethrown only otherwise |
| JobProperties.EmptyJobCompletes | src/transactions/temp-transactions.processor.ts:45-47 | a transaction with no outputs completes the job and changes no store |
| JobProperties.NotFinalKeepsSavedWork | src/transactions/temp-transactions.processor.ts:102-108 | a "not final" job has still filed every output's record and removed its staging marker |
| JobProperties.OneUnfinishedOutputFailsJob | src/transactions/temp-transactions.processor.ts:61 | with one final and one unfinished output, the job is "not final" and the final output's record is filed |
| JobProperties.JobKeepsCommittedRecords | src/transactions/temp-transactions.processor.ts:63-91 | whatever the services answer, a job keeps every existing record filed under its own key with all fields but its state |
| JobProperties.WithdrawalJobIgnoresAccountCheck | src/transactions/temp-transactions.processor.ts:54-56 | a withdrawal job gives the same stores and outcome whatever the account query would answer |
| JobProperties.WithdrawalJobNeverPendingTrust | src/transactions/temp-transactions.processor.ts:54-89 | after a withdrawal job that processed all outputs, every output's record is filed and none is `pending_trust` |
| JobProperties.JobStoppedAt | src/transactions/temp-transactions.processor.ts:109-116 | a job whose loop fails at an output ends with the stores before it and that error, classified |
| JobProperties.ServiceErrorInLoopClassified | src/transactions/temp-transactions.processor.ts:48-116 | when the loop reaches an output whose mapping lookup or account query fails, the job ends with the stores the earlier outputs left and that call's error, "not found" exactly for a 404 and rethrown otherwise |
| JobProperties.JobFailsBeforeLoop | src/transactions/temp-transactions.processor.ts:42-44 | a failed scan, or a failed rates lookup after a successful scan, leaves every store as it was and classifies that call's error |
| JobProperties.JobRanThrough | src/transactions/temp-transactions.processor.ts:102-108 | a job whose loop ran to the end completes when all outputs were final and is "not final" otherwise |
| Redelivery.ReplayStep | src/transactions/temp-transactions.processor.ts:63-91 | reprocessing an output over a ledger whose record under its key agrees, except in state, with what the first pass saved: the replay saves the first pass's record and appends the same jobs |
| Redelivery.StepMirrors | src/transactions/temp-transactions.processor.ts:63-99 | a second pass over an output, in stores mirroring the first pass, saves the same record, forwards the same job and keeps the mirroring |
| Redelivery.Replay | src/transactions/temp-transactions.processor.ts:48-100 | a second loop over stores that already hold the first loop's records rebuilds the same ledger and forwards the same jobs |
| Redelivery.RunTwiceStopped | src/transactions/temp-transactions.processor.ts:48-116 | a second loop after a failed first one fails with the same error and leaves the same ledger and staging, forwarding the same jobs again |
| Redelivery.RunTwice | src/transactions/temp-transactions.processor.ts:48-116 | running the loop twice gives the first run's ledger, staging and verdict, and the first run's forwarded jobs appended again |
| Redelivery.RedeliveryIsIdempotentOnLedger | src/transactions/temp-transactions.processor.ts:35-117 | processing the same job again gives the same outcome, ledger and staging store, and appends again every job the first run forwarded |
| Processor.TempTransactionsProcessor.constructor | src/transactions/temp-transactions.processor.ts:24-33 | the worker starts on the given stores and services, with every record filed under its own key |
| Processor.TempTransactionsProcessor.ProcessOutputAt | src/transactions/temp-transactions.processor.ts:48-100 | one loop turn leaves the stores as `ProcessOutput` gives and returns the output's finality; on failure the stores are untouched |
| Processor.TempTransactionsProcessor.ProcessOutputs | src/transactions/temp-transactions.processor.ts:45-108 | the output loop leaves the stores and outcome that `ProcessJob` gives, keeping every record under its own key |
| Processor.TempTransactionsProcessor.Process | src/transactions/temp-transactions.processor.ts:35-117 | processing a job leaves the stores and gives the outcome that `ProcessJob` gives, keeping every record under its own key |

## Left out

- The wallet adapters (`checkTransaction`, `isFinalYet`), the mapping lookup, the Stellar account query, the rates lookup and the configuration loader are foreign calls. They are fields of `Services`, total functions the model only queries.
- `walletFactoryService.get` (line 38) runs outside the `try`. The model assumes it does not fail.
- Failures of the ledger lookup `findOne` (line 63) and of `save`, `delete` and `queue.add` are not modelled. The lookup is a map lookup and the writes are map, set and sequence updates that always succeed. In the code, a failure of any of these calls inside the `try` would be classified like any other error.
- Failures of `isFinalYet` (line 60) and of the configuration lookup are not modelled: both are total functions in `Services`.
- Bull delivery, retries, the `done` callback, the job options and logging are left out. The outcome is a `JobResult` value and the queue is an appended sequence.
- Concurrency between workers and the atomicity of the upsert in `save` are left out. The model is single-threaded, and a job sees the ledger as the previous job left it.
- The rate snapshot `rates[output.asset] || 0` treats a listed rate of 0 like a missing one. Both give 0, so the model does not distinguish them.
- Transactions.ExtraToString: renders the exact value of the tag. The source's `toString(10)` (line 75) works on a JavaScript number, so above 2^53 it prints the shortest digits that read back to the rounded double, and these need not be the tag's. For example, tag 2^60 = 1152921504606846976 is stored as "1152921504606847000", while the model stores "1152921504606846976". From 1e21 on, `toString(10)` also switches to exponent notation. Stellar memo IDs are 64-bit, so such tags can occur.
- `src/app.controller.ts` is HTTP endpoint code and is not part of this model.
