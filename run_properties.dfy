/**
 * What the output loop of one job does to the stores, proved by induction
 * over the outputs. `RunOutputs` consumes the outputs in order, so each
 * proof peels off the last output processed.
 */
module RunProperties {
  import opened Wrappers
  import opened Transactions
  import opened Policy
  import opened Reconcile
  import opened Properties

  /**
   * Records already in the ledger survive the loop with at most their state
   * changed; records under keys no output names are untouched; no record
   * appears under a key no output names.
   */
  lemma {:induction false} RunKeepsCommittedRecords(st: Stores, job: Job, svc: Services, rates: map<string, real>, outs: seq<Output>)
    ensures var r := RunOutputs(st, job, svc, rates, outs).stores;
            && st.ledger.Keys <= r.ledger.Keys
            && r.ledger.Keys <= st.ledger.Keys + KeysOf(outs)
            && (forall k :: k in st.ledger ==> SameButState(st.ledger[k], r.ledger[k]))
            && (forall k :: k in st.ledger && k !in KeysOf(outs) ==> r.ledger[k] == st.ledger[k])
    decreases |outs|
  {
    if outs != [] {
      var p := outs[..|outs| - 1];
      var o := outs[|outs| - 1];
      RunKeepsCommittedRecords(st, job, svc, rates, p);
      KeysOfSnoc(outs);
      var prev := RunOutputs(st, job, svc, rates, p);
      if prev.Running? && ProcessOutput(prev.stores, job, svc, rates, o).Success? {
        StepKeepsFields(prev.stores, job, svc, rates, o);
      }
    }
  }

  /** Every record stays filed under its own dedup key. */
  lemma {:induction false} RunKeepsWellKeyed(st: Stores, job: Job, svc: Services, rates: map<string, real>, outs: seq<Output>)
    requires WellKeyed(st.ledger)
    ensures WellKeyed(RunOutputs(st, job, svc, rates, outs).stores.ledger)
    decreases |outs|
  {
    if outs != [] {
      RunKeepsWellKeyed(st, job, svc, rates, outs[..|outs| - 1]);
    }
  }

  /**
   * When the loop runs to the end, every output's dedup key holds exactly one
   * record (the ledger is keyed by it) and no other key was added.
   */
  lemma {:induction false} RunFilesEveryOutput(st: Stores, job: Job, svc: Services, rates: map<string, real>, outs: seq<Output>)
    requires RunOutputs(st, job, svc, rates, outs).Running?
    ensures RunOutputs(st, job, svc, rates, outs).stores.ledger.Keys == st.ledger.Keys + KeysOf(outs)
    decreases |outs|
  {
    if outs != [] {
      RunFilesEveryOutput(st, job, svc, rates, outs[..|outs| - 1]);
      KeysOfSnoc(outs);
    }
  }

  /** The facts a record created by the loop carries from the output that created it. */
  ghost predicate CreatedFrom(job: Job, svc: Services, rates: map<string, real>, o: Output, tx: Transaction) {
    && Observe(job, svc, o).Success?
    && KeyOf(tx) == KeyOfOutput(o)
    && tx.amountIn == o.value
    && tx.amountFee == OutputFee(job, svc, o, Observe(job, svc, o).value.status)
    && tx.amountOut == tx.amountIn - tx.amountFee
    && tx.rateUsd == RateFor(rates, o.asset)
    && !tx.refunded
  }

  /** A step that files a new key builds its record from the output. */
  lemma StepCreates(s: Stores, job: Job, svc: Services, rates: map<string, real>, o: Output)
    requires ProcessOutput(s, job, svc, rates, o).Success? && KeyOfOutput(o) !in s.ledger
    ensures CreatedFrom(job, svc, rates, o, ProcessOutput(s, job, svc, rates, o).value.ledger[KeyOfOutput(o)])
  {
  }

  /**
   * Every record the loop creates was built from one of the job's outputs:
   * the amount, the fee for that output, the amount less the fee, the rate
   * snapshot (0 when missing), and not refunded.
   */
  lemma {:induction false} RunNewRecords(st: Stores, job: Job, svc: Services, rates: map<string, real>, outs: seq<Output>)
    ensures var r := RunOutputs(st, job, svc, rates, outs).stores;
            forall k :: k in r.ledger && k !in st.ledger ==>
              exists i :: 0 <= i < |outs| && CreatedFrom(job, svc, rates, outs[i], r.ledger[k])
    decreases |outs|
  {
    if outs != [] {
      var p := outs[..|outs| - 1];
      var o := outs[|outs| - 1];
      RunNewRecords(st, job, svc, rates, p);
      var prev := RunOutputs(st, job, svc, rates, p);
      var r := RunOutputs(st, job, svc, rates, outs).stores;
      if prev.Running? && ProcessOutput(prev.stores, job, svc, rates, o).Success? {
        StepKeepsFields(prev.stores, job, svc, rates, o);
        if KeyOfOutput(o) !in prev.stores.ledger {
          StepCreates(prev.stores, job, svc, rates, o);
        }
        forall k | k in r.ledger && k !in st.ledger
          ensures exists i :: 0 <= i < |outs| && CreatedFrom(job, svc, rates, outs[i], r.ledger[k])
        {
          if k in prev.stores.ledger {
            var i :| 0 <= i < |p| && CreatedFrom(job, svc, rates, p[i], prev.stores.ledger[k]);
            assert outs[i] == p[i];
            assert CreatedFrom(job, svc, rates, outs[i], r.ledger[k]);
          } else {
            assert CreatedFrom(job, svc, rates, outs[|outs| - 1], r.ledger[k]);
          }
        }
      }
    }
  }

  /** The loop's accumulated verdict is the conjunction of the outputs' finality. */
  lemma {:induction false} RunAllFinal(st: Stores, job: Job, svc: Services, rates: map<string, real>, outs: seq<Output>)
    requires RunOutputs(st, job, svc, rates, outs).Running?
    ensures RunOutputs(st, job, svc, rates, outs).allFinal
            <==> forall i :: 0 <= i < |outs| ==> OutputFinal(job, svc, rates, outs[i])
    decreases |outs|
  {
    if outs != [] {
      var p := outs[..|outs| - 1];
      RunAllFinal(st, job, svc, rates, p);
      assert forall i :: 0 <= i < |p| ==> p[i] == outs[i];
    }
  }

  /** Whether a queued job holds a single transaction whose state is settlement-ready or a limit violation. */
  predicate ForwardedReady(j: ForwardJob) {
    |j.txs| == 1 && j.txs[0].state in {PendingAnchor, TooSmall, TooLarge}
  }

  /**
   * The loop only appends to the forwarding queue, at most one job per
   * output, and each appended job holds one transaction that is
   * settlement-ready or carries a limit violation.
   */
  lemma {:induction false} RunQueue(st: Stores, job: Job, svc: Services, rates: map<string, real>, outs: seq<Output>)
    ensures var q := RunOutputs(st, job, svc, rates, outs).stores.queue;
            && |st.queue| <= |q| <= |st.queue| + |outs|
            && q[..|st.queue|] == st.queue
            && forall j :: |st.queue| <= j < |q| ==> ForwardedReady(q[j])
    decreases |outs|
  {
    if outs != [] {
      var p := outs[..|outs| - 1];
      var o := outs[|outs| - 1];
      RunQueue(st, job, svc, rates, p);
      var prev := RunOutputs(st, job, svc, rates, p);
      if prev.Running? && ProcessOutput(prev.stores, job, svc, rates, o).Success? {
        var obs := Observe(job, svc, o).value;
        ForwardingRule(prev.stores, job, svc, rates, o);
        if obs.status.trusts && OutputFinal(job, svc, rates, o) {
          ForwardedState(CheckLimits(job.txType, svc.config(o.asset), o.value), true, true, false);
        }
      }
    }
  }

  /**
   * The loop removes only this job's staging marker, and removes it once any
   * output has been saved; a job with no outputs leaves the store as it was.
   */
  lemma {:induction false} RunStaging(st: Stores, job: Job, svc: Services, rates: map<string, real>, outs: seq<Output>)
    ensures var s := RunOutputs(st, job, svc, rates, outs).stores.staging;
            st.staging - {Pending(job.asset, job.hash)} <= s <= st.staging
    ensures RunOutputs(st, job, svc, rates, outs).Running? && outs != [] ==>
            RunOutputs(st, job, svc, rates, outs).stores.staging == st.staging - {Pending(job.asset, job.hash)}
    ensures outs == [] ==> RunOutputs(st, job, svc, rates, outs).stores == st
    decreases |outs|
  {
    if outs != [] {
      RunStaging(st, job, svc, rates, outs[..|outs| - 1]);
    }
  }

  /** In a withdrawal job, every output's record is filed and none is left waiting for trust. */
  lemma {:induction false} RunWithdrawalNeverPendingTrust(st: Stores, job: Job, svc: Services, rates: map<string, real>, outs: seq<Output>)
    requires job.txType == Withdrawal
    requires RunOutputs(st, job, svc, rates, outs).Running?
    ensures var r := RunOutputs(st, job, svc, rates, outs).stores;
            forall i :: 0 <= i < |outs| ==>
              KeyOfOutput(outs[i]) in r.ledger && r.ledger[KeyOfOutput(outs[i])].state != PendingTrust
    decreases |outs|
  {
    if outs != [] {
      var p := outs[..|outs| - 1];
      var o := outs[|outs| - 1];
      var prev := RunOutputs(st, job, svc, rates, p);
      assert prev.Running?;
      RunWithdrawalNeverPendingTrust(st, job, svc, rates, p);
      assert ProcessOutput(prev.stores, job, svc, rates, o).Success?;
      WithdrawalOutputNotPendingTrust(prev.stores, job, svc, rates, o);
      var r := ProcessOutput(prev.stores, job, svc, rates, o).value;
      assert RunOutputs(st, job, svc, rates, outs).stores == r;
      assert r.ledger == prev.stores.ledger[KeyOfOutput(o) := r.ledger[KeyOfOutput(o)]];
      forall i | 0 <= i < |outs|
        ensures KeyOfOutput(outs[i]) in r.ledger && r.ledger[KeyOfOutput(outs[i])].state != PendingTrust
      {
        if i < |p| {
          assert outs[i] == p[i];
        }
      }
    }
  }

  /** A withdrawal job never consults the Stellar account query. */
  lemma {:induction false} RunIgnoresAccountCheck(st: Stores, job: Job, svc: Services, rates: map<string, real>, outs: seq<Output>,
                                                  query: (string, string, string) -> Result<AccountStatus, Error>)
    requires job.txType == Withdrawal
    ensures RunOutputs(st, job, svc, rates, outs) == RunOutputs(st, job, svc.(stellarCheckAccount := query), rates, outs)
    decreases |outs|
  {
    if outs != [] {
      RunIgnoresAccountCheck(st, job, svc, rates, outs[..|outs| - 1], query);
    }
  }

  /** A loop that stopped did so at some output, after running the outputs before it. */
  lemma {:induction false} StoppedAt(st: Stores, job: Job, svc: Services, rates: map<string, real>, outs: seq<Output>) returns (n: nat)
    requires RunOutputs(st, job, svc, rates, outs).Stopped?
    ensures n < |outs|
    ensures var r := RunOutputs(st, job, svc, rates, outs);
            && RunOutputs(st, job, svc, rates, outs[..n]).Running?
            && RunOutputs(st, job, svc, rates, outs[..n]).stores == r.stores
            && ProcessOutput(r.stores, job, svc, rates, outs[n]) == Failure(r.error)
    decreases |outs|
  {
    var p := outs[..|outs| - 1];
    if RunOutputs(st, job, svc, rates, p).Stopped? {
      n := StoppedAt(st, job, svc, rates, p);
      assert outs[..n] == p[..n];
      assert outs[n] == p[n];
    } else {
      n := |outs| - 1;
      assert outs[..n] == p;
    }
  }

  /** Once the loop fails at an output, the outputs after it do not matter. */
  lemma {:induction false} StaysStopped(st: Stores, job: Job, svc: Services, rates: map<string, real>, outs: seq<Output>, n: nat)
    requires n < |outs|
    requires RunOutputs(st, job, svc, rates, outs[..n]).Running?
    requires ProcessOutput(RunOutputs(st, job, svc, rates, outs[..n]).stores, job, svc, rates, outs[n]).Failure?
    ensures RunOutputs(st, job, svc, rates, outs)
            == Stopped(RunOutputs(st, job, svc, rates, outs[..n]).stores,
                       ProcessOutput(RunOutputs(st, job, svc, rates, outs[..n]).stores, job, svc, rates, outs[n]).error)
    decreases |outs|
  {
    var p := outs[..|outs| - 1];
    if n < |outs| - 1 {
      assert p[..n] == outs[..n] && p[n] == outs[n];
      StaysStopped(st, job, svc, rates, p, n);
    } else {
      assert p == outs[..n];
    }
  }

  /** One more output processed without error extends the running loop. */
  lemma RunExtends(st: Stores, job: Job, svc: Services, rates: map<string, real>, outs: seq<Output>, i: nat, next: Stores)
    requires i < |outs|
    requires RunOutputs(st, job, svc, rates, outs[..i]).Running?
    requires ProcessOutput(RunOutputs(st, job, svc, rates, outs[..i]).stores, job, svc, rates, outs[i]) == Success(next)
    ensures RunOutputs(st, job, svc, rates, outs[..i + 1])
            == Running(next, RunOutputs(st, job, svc, rates, outs[..i]).allFinal && OutputFinal(job, svc, rates, outs[i]))
  {
    assert outs[..i + 1][..i] == outs[..i];
  }
}
