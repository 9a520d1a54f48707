/**
 * Properties of a whole job: its outcome and the classification of errors
 * from the scan, the rates lookup and the output loop, what it preserves in
 * the ledger, and the withdrawal shortcut.
 */
module JobProperties {
  import opened Wrappers
  import opened Transactions
  import opened Reconcile
  import opened Properties
  import opened RunProperties

  /** Both calls made before the output loop (chain scan, rates) succeed. */
  predicate Scanned(job: Job, svc: Services) {
    WalletIn(job, svc).checkTransaction(job.asset, job.hash).Success? && svc.getRates.Success?
  }

  function OutputsOf(job: Job, svc: Services): seq<Output>
    requires Scanned(job, svc)
  {
    WalletIn(job, svc).checkTransaction(job.asset, job.hash).value
  }

  function RatesOf(svc: Services): map<string, real>
    requires svc.getRates.Success?
  {
    svc.getRates.value
  }

  // ---------------------------------------------------------------------
  // Job outcome

  /**
   * A job succeeds exactly when the scan, the rates and every output were
   * processed and every output is final; it reports "not final" exactly when
   * all were processed and some output is not final; a 404 from any call is
   * "not found" and every other error is rethrown.
   */
  lemma {:induction false} JobOutcome(st: Stores, job: Job, svc: Services)
    ensures var r := ProcessJob(st, job, svc).result;
            r == Completed <==>
              && Scanned(job, svc)
              && RunOutputs(st, job, svc, RatesOf(svc), OutputsOf(job, svc)).Running?
              && forall i :: 0 <= i < |OutputsOf(job, svc)| ==> OutputFinal(job, svc, RatesOf(svc), OutputsOf(job, svc)[i])
    ensures var r := ProcessJob(st, job, svc).result;
            r == NotFinal <==>
              && Scanned(job, svc)
              && RunOutputs(st, job, svc, RatesOf(svc), OutputsOf(job, svc)).Running?
              && exists i :: 0 <= i < |OutputsOf(job, svc)| && !OutputFinal(job, svc, RatesOf(svc), OutputsOf(job, svc)[i])
    ensures var r := ProcessJob(st, job, svc).result;
            (r.NotFound? ==> r.error.status == Some(404)) && (r.Rethrown? ==> r.error.status != Some(404))
  {
    if Scanned(job, svc) && RunOutputs(st, job, svc, RatesOf(svc), OutputsOf(job, svc)).Running? {
      RunAllFinal(st, job, svc, RatesOf(svc), OutputsOf(job, svc));
    }
  }

  /** A chain transaction with no outputs for us completes the job and touches no store. */
  lemma EmptyJobCompletes(st: Stores, job: Job, svc: Services)
    requires WalletIn(job, svc).checkTransaction(job.asset, job.hash) == Success([])
    requires svc.getRates.Success?
    ensures ProcessJob(st, job, svc) == Processed(st, Completed)
  {
  }

  /**
   * A job that reports "not final" has still saved a record for every one of
   * its outputs and removed its staging marker.
   */
  lemma NotFinalKeepsSavedWork(st: Stores, job: Job, svc: Services)
    requires ProcessJob(st, job, svc).result == NotFinal
    ensures Scanned(job, svc)
    ensures var s := ProcessJob(st, job, svc).stores;
            && s.ledger.Keys == st.ledger.Keys + KeysOf(OutputsOf(job, svc))
            && s.staging == st.staging - {Pending(job.asset, job.hash)}
  {
    JobOutcome(st, job, svc);
    RunFilesEveryOutput(st, job, svc, RatesOf(svc), OutputsOf(job, svc));
    RunStaging(st, job, svc, RatesOf(svc), OutputsOf(job, svc));
  }

  /**
   * Two outputs, one final and one not: both records are saved and the job
   * reports "not final".
   */
  lemma OneUnfinishedOutputFailsJob(st: Stores, job: Job, svc: Services)
    requires Scanned(job, svc) && |OutputsOf(job, svc)| == 2
    requires RunOutputs(st, job, svc, RatesOf(svc), OutputsOf(job, svc)).Running?
    requires OutputFinal(job, svc, RatesOf(svc), OutputsOf(job, svc)[0])
    requires !OutputFinal(job, svc, RatesOf(svc), OutputsOf(job, svc)[1])
    ensures ProcessJob(st, job, svc).result == NotFinal
    ensures KeyOfOutput(OutputsOf(job, svc)[0]) in ProcessJob(st, job, svc).stores.ledger
  {
    JobOutcome(st, job, svc);
    RunFilesEveryOutput(st, job, svc, RatesOf(svc), OutputsOf(job, svc));
  }

  // ---------------------------------------------------------------------
  // Ledger invariants

  /**
   * Whatever the services answer this time (a changed rate, a changed
   * mapping, a changed fee), a record already in the ledger keeps every
   * field but its state, and stays filed under its own key.
   */
  lemma JobKeepsCommittedRecords(st: Stores, job: Job, svc: Services)
    requires WellKeyed(st.ledger)
    ensures var s := ProcessJob(st, job, svc).stores;
            && WellKeyed(s.ledger)
            && st.ledger.Keys <= s.ledger.Keys
            && forall k :: k in st.ledger ==> SameButState(st.ledger[k], s.ledger[k])
  {
    if Scanned(job, svc) {
      RunKeepsCommittedRecords(st, job, svc, RatesOf(svc), OutputsOf(job, svc));
      RunKeepsWellKeyed(st, job, svc, RatesOf(svc), OutputsOf(job, svc));
    }
  }

  /** A withdrawal job gives the same stores and outcome whatever the account query would answer. */
  lemma WithdrawalJobIgnoresAccountCheck(st: Stores, job: Job, svc: Services,
                                         query: (string, string, string) -> Result<AccountStatus, Error>)
    requires job.txType == Withdrawal
    ensures ProcessJob(st, job, svc) == ProcessJob(st, job, svc.(stellarCheckAccount := query))
  {
    if Scanned(job, svc) {
      RunIgnoresAccountCheck(st, job, svc, RatesOf(svc), OutputsOf(job, svc), query);
    }
  }

  /** After a withdrawal job that processed all its outputs, none of their records waits for trust. */
  lemma WithdrawalJobNeverPendingTrust(st: Stores, job: Job, svc: Services)
    requires job.txType == Withdrawal
    requires ProcessJob(st, job, svc).result in {Completed, NotFinal}
    ensures Scanned(job, svc)
    ensures var s := ProcessJob(st, job, svc).stores;
            forall i :: 0 <= i < |OutputsOf(job, svc)| ==>
              KeyOfOutput(OutputsOf(job, svc)[i]) in s.ledger && s.ledger[KeyOfOutput(OutputsOf(job, svc)[i])].state != PendingTrust
  {
    JobOutcome(st, job, svc);
    RunWithdrawalNeverPendingTrust(st, job, svc, RatesOf(svc), OutputsOf(job, svc));
  }

  /** A job whose output loop fails at output `i` ends with the stores as they were before it and the classified error. */
  lemma JobStoppedAt(st: Stores, job: Job, svc: Services, i: nat, e: Error)
    requires Scanned(job, svc) && i < |OutputsOf(job, svc)|
    requires RunOutputs(st, job, svc, RatesOf(svc), OutputsOf(job, svc)[..i]).Running?
    requires ProcessOutput(RunOutputs(st, job, svc, RatesOf(svc), OutputsOf(job, svc)[..i]).stores,
                           job, svc, RatesOf(svc), OutputsOf(job, svc)[i]) == Failure(e)
    ensures ProcessJob(st, job, svc)
            == Processed(RunOutputs(st, job, svc, RatesOf(svc), OutputsOf(job, svc)[..i]).stores, Classify(e))
  {
    StaysStopped(st, job, svc, RatesOf(svc), OutputsOf(job, svc), i);
  }

  /**
   * When the loop reaches output `i` and that output's mapping lookup or
   * account query fails, the job ends with the stores as they were before it
   * and that call's error: "not found" for a 404, rethrown otherwise.
   */
  lemma ServiceErrorInLoopClassified(st: Stores, job: Job, svc: Services, i: nat)
    requires Scanned(job, svc) && i < |OutputsOf(job, svc)|
    requires RunOutputs(st, job, svc, RatesOf(svc), OutputsOf(job, svc)[..i]).Running?
    requires Observe(job, svc, OutputsOf(job, svc)[i]).Failure?
    ensures var e := Observe(job, svc, OutputsOf(job, svc)[i]).error;
            && ProcessJob(st, job, svc) == Processed(RunOutputs(st, job, svc, RatesOf(svc), OutputsOf(job, svc)[..i]).stores, Classify(e))
            && (ProcessJob(st, job, svc).result.NotFound? <==> e.status == Some(404))
            && (ProcessJob(st, job, svc).result.Rethrown? <==> e.status != Some(404))
            && ProcessJob(st, job, svc).result.error == e
  {
    var outs := OutputsOf(job, svc);
    var s := RunOutputs(st, job, svc, RatesOf(svc), outs[..i]).stores;
    ObserveFailureFailsOutput(s, job, svc, RatesOf(svc), outs[i]);
    JobStoppedAt(st, job, svc, i, Observe(job, svc, outs[i]).error);
  }

  /** A failed scan or rates lookup leaves every store as it was and classifies that call's error. */
  lemma JobFailsBeforeLoop(st: Stores, job: Job, svc: Services)
    ensures var scan := WalletIn(job, svc).checkTransaction(job.asset, job.hash);
            scan.Failure? ==> ProcessJob(st, job, svc) == Processed(st, Classify(scan.error))
    ensures var scan := WalletIn(job, svc).checkTransaction(job.asset, job.hash);
            scan.Success? && svc.getRates.Failure? ==> ProcessJob(st, job, svc) == Processed(st, Classify(svc.getRates.error))
  {
  }

  /** A job whose output loop ran to the end reports the accumulated verdict. */
  lemma JobRanThrough(st: Stores, job: Job, svc: Services)
    requires Scanned(job, svc)
    requires RunOutputs(st, job, svc, RatesOf(svc), OutputsOf(job, svc)).Running?
    ensures var run := RunOutputs(st, job, svc, RatesOf(svc), OutputsOf(job, svc));
            ProcessJob(st, job, svc) == Processed(run.stores, if run.allFinal then Completed else NotFinal)
  {
  }
}
