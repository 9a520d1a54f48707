/**
 * What processing one output does to the stores: reuse of a record filed
 * under the dedup key, construction of a new one, forwarding and staging
 * cleanup, the recomputed state, the missing-mapping failures and the
 * withdrawal shortcut.
 */
module Properties {
  import opened Wrappers
  import opened Transactions
  import opened Policy
  import opened Reconcile

  /** The dedup keys of a sequence of outputs. */
  function KeysOf(outs: seq<Output>): (ks: set<TxKey>)
    ensures forall i :: 0 <= i < |outs| ==> KeyOfOutput(outs[i]) in ks
    ensures forall k :: k in ks ==> exists i :: 0 <= i < |outs| && KeyOfOutput(outs[i]) == k
  {
    set i | 0 <= i < |outs| :: KeyOfOutput(outs[i])
  }

  lemma KeysOfSnoc(outs: seq<Output>)
    requires outs != []
    ensures KeysOf(outs) == KeysOf(outs[..|outs| - 1]) + {KeyOfOutput(outs[|outs| - 1])}
  {
    var p := outs[..|outs| - 1];
    forall k | k in KeysOf(outs) ensures k in KeysOf(p) + {KeyOfOutput(outs[|outs| - 1])} {
      var i :| 0 <= i < |outs| && KeyOfOutput(outs[i]) == k;
      if i < |p| { assert p[i] == outs[i]; }
    }
    forall k | k in KeysOf(p) ensures k in KeysOf(outs) {
      var i :| 0 <= i < |p| && KeyOfOutput(p[i]) == k;
      assert outs[i] == p[i];
    }
  }

  // ---------------------------------------------------------------------
  // One output

  /**
   * A record already filed under the output's dedup key is reused: the save
   * changes its state and nothing else, and no other record.
   */
  lemma ReusedRecordKeepsFields(st: Stores, job: Job, svc: Services, rates: map<string, real>, o: Output)
    requires KeyOfOutput(o) in st.ledger
    requires Observe(job, svc, o).Success?
    ensures ProcessOutput(st, job, svc, rates, o).Success?
    ensures var s := ProcessOutput(st, job, svc, rates, o).value;
            var k := KeyOfOutput(o);
            && s.ledger.Keys == st.ledger.Keys
            && SameButState(st.ledger[k], s.ledger[k])
            && s.ledger[k].state == OutputState(job, svc, rates, o, Observe(job, svc, o).value.status)
            && forall k' :: k' in st.ledger && k' != k ==> s.ledger[k'] == st.ledger[k']
  {
  }

  /**
   * A processed output writes the record under its own key and no other:
   * every record already present keeps all its fields but its state.
   */
  lemma StepKeepsFields(st: Stores, job: Job, svc: Services, rates: map<string, real>, o: Output)
    requires ProcessOutput(st, job, svc, rates, o).Success?
    ensures var s := ProcessOutput(st, job, svc, rates, o).value;
            && s.ledger == st.ledger[KeyOfOutput(o) := s.ledger[KeyOfOutput(o)]]
            && forall k :: k in st.ledger ==> k in s.ledger && SameButState(st.ledger[k], s.ledger[k])
  {
  }

  /**
   * An output seen for the first time gets a new record: fee and rate fixed
   * now, the amount paid out is the amount in less the fee, not refunded.
   */
  lemma FirstSightingBuildsRecord(st: Stores, job: Job, svc: Services, rates: map<string, real>, o: Output)
    requires KeyOfOutput(o) !in st.ledger
    requires Observe(job, svc, o).Success?
    ensures var obs := Observe(job, svc, o).value;
            ProcessOutput(st, job, svc, rates, o).Success? <==> obs.mapping.Some?
    ensures ProcessOutput(st, job, svc, rates, o).Success? ==>
            var obs := Observe(job, svc, o).value;
            var s := ProcessOutput(st, job, svc, rates, o).value;
            var tx := s.ledger[KeyOfOutput(o)];
            && s.ledger.Keys == st.ledger.Keys + {KeyOfOutput(o)}
            && KeyOf(tx) == KeyOfOutput(o)
            && tx.txType == job.txType && tx.asset == o.asset
            && tx.amountIn == o.value
            && tx.amountFee == CalculateFee(job.txType, o.value, svc.config(o.asset), !obs.status.accountExists)
            && tx.amountOut == tx.amountIn - tx.amountFee
            && tx.rateUsd == RateFor(rates, o.asset)
            && !tx.refunded
            && tx.mapping == obs.mapping.value && tx.addressOut == obs.mapping.value.addressOut
            && tx.state == OutputState(job, svc, rates, o, obs.status)
  {
  }

  /**
   * After a save, exactly one single-transaction job holding the saved record
   * is enqueued when the output is trusted, final and not batched; otherwise
   * none. The job's staging marker is removed either way.
   */
  lemma ForwardingRule(st: Stores, job: Job, svc: Services, rates: map<string, real>, o: Output)
    requires ProcessOutput(st, job, svc, rates, o).Success?
    ensures Observe(job, svc, o).Success?
    ensures var s := ProcessOutput(st, job, svc, rates, o).value;
            var tx := s.ledger[KeyOfOutput(o)];
            var ready := Observe(job, svc, o).value.status.trusts && OutputFinal(job, svc, rates, o)
                         && !Batching(tx.txType, svc.config(tx.asset));
            && (ready ==> s.queue == st.queue + [ForwardJob([tx])])
            && (!ready ==> s.queue == st.queue)
            && s.staging == st.staging - {Pending(job.asset, job.hash)}
  {
  }

  /**
   * The limit states are not sticky: a record saved as too small becomes
   * settlement-ready once the limits pass and the output is trusted and final.
   */
  lemma LimitStateNotSticky(st: Stores, job: Job, svc: Services, rates: map<string, real>, o: Output)
    requires KeyOfOutput(o) in st.ledger && st.ledger[KeyOfOutput(o)].state == TooSmall
    requires Observe(job, svc, o).Success? && Observe(job, svc, o).value.status.trusts
    requires CheckLimits(job.txType, svc.config(o.asset), o.value).None?
    requires OutputFinal(job, svc, rates, o)
    ensures ProcessOutput(st, job, svc, rates, o).Success?
    ensures ProcessOutput(st, job, svc, rates, o).value.ledger[KeyOfOutput(o)].state == PendingAnchor
  {
  }

  /** An output whose mapping lookup or account query fails fails with that error, before the ledger is consulted. */
  lemma ObserveFailureFailsOutput(st: Stores, job: Job, svc: Services, rates: map<string, real>, o: Output)
    ensures Observe(job, svc, o).Failure? ==> ProcessOutput(st, job, svc, rates, o) == Failure(Observe(job, svc, o).error)
  {
  }

  /** A deposit whose inbound address has no mapping fails and changes nothing. */
  lemma DepositNeedsMapping(st: Stores, job: Job, svc: Services, rates: map<string, real>, o: Output)
    requires job.txType == Deposit
    requires svc.findMapping(o.asset, o.addressIn, o.addressInExtra) == Success(None)
    ensures ProcessOutput(st, job, svc, rates, o) == Failure(AbsentMappingError)
  {
  }

  /**
   * A withdrawal dereferences the mapping only to build a new record: with no
   * mapping it succeeds exactly when the output's record already exists.
   */
  lemma WithdrawalNeedsMappingOnlyForNewRecords(st: Stores, job: Job, svc: Services, rates: map<string, real>, o: Output)
    requires job.txType == Withdrawal
    requires svc.findMapping(o.asset, o.addressIn, o.addressInExtra) == Success(None)
    ensures ProcessOutput(st, job, svc, rates, o).Success? <==> KeyOfOutput(o) in st.ledger
    ensures KeyOfOutput(o) !in st.ledger ==> ProcessOutput(st, job, svc, rates, o) == Failure(AbsentMappingError)
  {
  }

  /** A withdrawal's record is never left waiting for trust. */
  lemma WithdrawalOutputNotPendingTrust(st: Stores, job: Job, svc: Services, rates: map<string, real>, o: Output)
    requires job.txType == Withdrawal
    requires ProcessOutput(st, job, svc, rates, o).Success?
    ensures ProcessOutput(st, job, svc, rates, o).value.ledger[KeyOfOutput(o)].state != PendingTrust
  {
    TrustedNeverPendingTrust(job.txType, svc.config(o.asset), o.value, OutputFinal(job, svc, rates, o));
  }
}
