/**
 * The temp-transactions processor: a worker that owns handles on the
 * ledger, the forwarding queue and the staging store, and processes one job
 * at a time, updating them step by step.
 */
module Processor {
  import opened Wrappers
  import opened Transactions
  import opened Policy
  import opened Reconcile
  import RunProperties
  import JobProperties

  class TempTransactionsProcessor {
    /** Configuration and the collaborators it only queries. */
    const services: Services
    /** The transactions table, keyed by dedup key. */
    var ledger: map<TxKey, Transaction>
    /** The downstream `transactions` queue, oldest job first. */
    var queue: seq<ForwardJob>
    /** The temp-transactions store: chain transactions awaiting processing. */
    var staging: set<Pending>

    ghost predicate Valid()
      reads this
    {
      WellKeyed(ledger)
    }

    /** The three stores as one value. */
    function Snapshot(): Stores
      reads this
    {
      Stores(ledger, queue, staging)
    }

    constructor (services: Services, ledger: map<TxKey, Transaction>, queue: seq<ForwardJob>, staging: set<Pending>)
      requires WellKeyed(ledger)
      ensures Valid()
      ensures this.services == services && Snapshot() == Stores(ledger, queue, staging)
    {
      this.services := services;
      this.ledger := ledger;
      this.queue := queue;
      this.staging := staging;
    }

    /**
     * One turn of the output loop: resolve the output's mapping and account
     * status, compute fee, rate and finality, reuse or create its record,
     * set its state, save it, drop the staging marker and forward it when
     * ready. On success the stores end as `ProcessOutput` says and the
     * output's finality is returned; a failure leaves them as they were.
     */
    method ProcessOutputAt(job: Job, walletIn: Wallet, rates: map<string, real>, output: Output) returns (r: Result<bool, Error>)
      requires Valid() && walletIn == WalletIn(job, services)
      modifies this
      ensures Valid()
      ensures r.Success? ==> ProcessOutput(old(Snapshot()), job, services, rates, output) == Success(Snapshot())
                             && r.value == OutputFinal(job, services, rates, output)
      ensures r.Failure? ==> ProcessOutput(old(Snapshot()), job, services, rates, output) == Failure(r.error)
                             && Snapshot() == old(Snapshot())
    {
      var found := services.findMapping(output.asset, output.addressIn, output.addressInExtra);
      if found.Failure? {
        return Failure(found.error);
      }
      var mapping := found.value;
      var status: AccountStatus;
      if job.txType == Withdrawal {
        status := AccountStatus(true, true);
      } else {
        if mapping.None? {
          return Failure(AbsentMappingError);
        }
        var checked := CheckAccount(services, mapping.value.addressOut, output.asset);
        if checked.Failure? {
          return Failure(checked.error);
        }
        status := checked.value;
      }
      var assetConfig := services.config(output.asset);
      var fee := CalculateFee(job.txType, output.value, assetConfig, !status.accountExists);
      var rateUsd := RateFor(rates, output.asset);
      var isFinal := walletIn.isFinalYet(output.value, output.confirmations, rateUsd);

      var key := TxKey(output.txIn, output.txInIndex);
      var state := DecideState(CheckLimits(job.txType, assetConfig, output.value), status.trusts, isFinal);
      var tx: Transaction;
      if key in ledger {
        tx := ledger[key].(state := state);
      } else {
        if mapping.None? {
          return Failure(AbsentMappingError);
        }
        tx := NewTransaction(job.txType, output, mapping.value, fee, rateUsd, state);
      }
      ledger := ledger[key := tx];
      staging := staging - {Pending(job.asset, job.hash)};
      if ShouldForward(status.trusts, isFinal, Batching(tx.txType, services.config(tx.asset))) {
        queue := queue + [ForwardJob([tx])];
      }
      r := Success(isFinal);
    }

    /**
     * Process one job: scan the chain transaction, snapshot the rates and
     * run the output loop. A failure of the scan or of the rates lookup is
     * classified like any other error. The stores end as `ProcessJob` says
     * and the outcome is the one it gives.
     */
    method Process(job: Job) returns (r: JobResult)
      requires Valid()
      modifies this
      ensures Valid()
      ensures Processed(Snapshot(), r) == ProcessJob(old(Snapshot()), job, services)
    {
      var walletIn := WalletIn(job, services);
      var scanned := walletIn.checkTransaction(job.asset, job.hash);
      if scanned.Failure? {
        return Classify(scanned.error);
      }
      var outputs := scanned.value;
      var fetched := services.getRates;
      if fetched.Failure? {
        return Classify(fetched.error);
      }
      var rates := fetched.value;
      r := ProcessOutputs(job, walletIn, outputs, rates);
    }

    /**
     * The output loop of a scanned job: the loop turn above on each output
     * in order, stopping at the first failure, whose error is classified;
     * the job is complete when every output was final.
     */
    method ProcessOutputs(job: Job, walletIn: Wallet, outputs: seq<Output>, rates: map<string, real>) returns (r: JobResult)
      requires Valid() && walletIn == WalletIn(job, services)
      requires JobProperties.Scanned(job, services)
      requires outputs == JobProperties.OutputsOf(job, services) && rates == JobProperties.RatesOf(services)
      modifies this
      ensures Valid()
      ensures Processed(Snapshot(), r) == ProcessJob(old(Snapshot()), job, services)
    {
      ghost var start := Snapshot();
      var allFinal := true;
      var i := 0;
      while i < |outputs|
        invariant 0 <= i <= |outputs|
        invariant RunOutputs(start, job, services, rates, outputs[..i]) == Running(Snapshot(), allFinal)
        invariant Valid()
      {
        var step := ProcessOutputAt(job, walletIn, rates, outputs[i]);
        if step.Failure? {
          JobProperties.JobStoppedAt(start, job, services, i, step.error);
          return Classify(step.error);
        }
        RunProperties.RunExtends(start, job, services, rates, outputs, i, Snapshot());
        allFinal := allFinal && step.value;
        i := i + 1;
      }
      assert outputs[..i] == outputs;
      JobProperties.JobRanThrough(start, job, services);
      r := if allFinal then Completed else NotFinal;
    }
  }
}
