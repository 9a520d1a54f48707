/**
 * Processing a job again, as happens when the queue redelivers it: the
 * ledger and the staging store come out as they were, the outcome repeats,
 * and every forwarding job of the first run is enqueued a second time.
 */
module Redelivery {
  import opened Wrappers
  import opened Transactions
  import opened Reconcile
  import opened Properties
  import opened RunProperties
  import opened JobProperties

  /**
   * One output replayed over a ledger whose record under the output's key
   * agrees, except in state, with what the first run saved there: the replay
   * saves the same record and enqueues the same jobs.
   */
  lemma ReplayStep(sa: Stores, sb: Stores, job: Job, svc: Services, rates: map<string, real>, o: Output)
    requires ProcessOutput(sa, job, svc, rates, o).Success?
    requires KeyOfOutput(o) in sb.ledger
    requires SameButState(sb.ledger[KeyOfOutput(o)], ProcessOutput(sa, job, svc, rates, o).value.ledger[KeyOfOutput(o)])
    ensures ProcessOutput(sb, job, svc, rates, o).Success?
    ensures var ta := ProcessOutput(sa, job, svc, rates, o).value;
            var tb := ProcessOutput(sb, job, svc, rates, o).value;
            var k := KeyOfOutput(o);
            && ta.ledger == sa.ledger[k := ta.ledger[k]]
            && tb.ledger == sb.ledger[k := ta.ledger[k]]
            && |sa.queue| <= |ta.queue|
            && ta.queue[..|sa.queue|] == sa.queue
            && tb.queue == sb.queue + ta.queue[|sa.queue|..]
            && tb.staging == sb.staging - {Pending(job.asset, job.hash)}
  {
    var k := KeyOfOutput(o);
    var obs := Observe(job, svc, o).value;
    var ta := ProcessOutput(sa, job, svc, rates, o).value;
    var txA := ta.ledger[k];
    assert txA.state == OutputState(job, svc, rates, o, obs.status);
    assert Record(sb.ledger, job, svc, rates, o, obs) == Success(txA);
  }

  /** The first run's records agree, except in state, with those of a ledger `l`. */
  ghost predicate Covers(l: map<TxKey, Transaction>, a: map<TxKey, Transaction>) {
    forall k :: k in a ==> k in l && SameButState(l[k], a[k])
  }

  /**
   * How a replay from `st2` stands against the first run from `st`, after
   * both processed outputs with keys `ks`: the replay's ledger has the keys
   * of `st2`, the first run's records under `ks` and those of `st2`
   * elsewhere; its queue is that of `st2` followed by what the first run
   * appended; its staging store lost `marker` once an output was processed.
   */
  ghost predicate Mirrors(a: Stores, b: Stores, st: Stores, st2: Stores, ks: set<TxKey>, touched: bool, marker: Pending) {
    && b.ledger.Keys == st2.ledger.Keys
    && (forall k :: k in ks ==> k in a.ledger && k in b.ledger && b.ledger[k] == a.ledger[k])
    && (forall k :: k in st2.ledger && k !in ks ==> k in b.ledger && b.ledger[k] == st2.ledger[k])
    && |st.queue| <= |a.queue|
    && b.queue == st2.queue + a.queue[|st.queue|..]
    && b.staging == (if touched then st2.staging - {marker} else st2.staging)
  }

  /** One output processed in both runs keeps the replay mirroring the first run. */
  lemma StepMirrors(sa: Stores, sb: Stores, st: Stores, st2: Stores, ks: set<TxKey>, touched: bool,
                    job: Job, svc: Services, rates: map<string, real>, o: Output)
    requires ProcessOutput(sa, job, svc, rates, o).Success?
    requires Mirrors(sa, sb, st, st2, ks, touched, Pending(job.asset, job.hash))
    requires Covers(st2.ledger, ProcessOutput(sa, job, svc, rates, o).value.ledger)
    ensures ProcessOutput(sb, job, svc, rates, o).Success?
    ensures Mirrors(ProcessOutput(sa, job, svc, rates, o).value, ProcessOutput(sb, job, svc, rates, o).value,
                    st, st2, ks + {KeyOfOutput(o)}, true, Pending(job.asset, job.hash))
  {
    var k := KeyOfOutput(o);
    var aq := ProcessOutput(sa, job, svc, rates, o).value;
    assert SameButState(sb.ledger[k], aq.ledger[k]) by {
      if k !in ks {
        assert sb.ledger[k] == st2.ledger[k];
      }
    }
    ReplayStep(sa, sb, job, svc, rates, o);
    assert aq.queue[|st.queue|..] == sa.queue[|st.queue|..] + aq.queue[|sa.queue|..] by {
      assert aq.queue == sa.queue + aq.queue[|sa.queue|..];
    }
  }

  /** The replay of `q` from `st2` runs to the end, with the first run's verdict, mirroring it. */
  ghost predicate Replayed(st: Stores, st2: Stores, job: Job, svc: Services, rates: map<string, real>, q: seq<Output>) {
    var a := RunOutputs(st, job, svc, rates, q);
    var b := RunOutputs(st2, job, svc, rates, q);
    && a.Running?
    && b.Running?
    && b.allFinal == a.allFinal
    && Mirrors(a.stores, b.stores, st, st2, KeysOf(q), q != [], Pending(job.asset, job.hash))
  }

  /** The inductive step of `Replay`: from the replay of all but the last output to the whole. */
  lemma ReplayStepRun(st: Stores, st2: Stores, job: Job, svc: Services, rates: map<string, real>, q: seq<Output>)
    requires q != []
    requires RunOutputs(st, job, svc, rates, q).Running?
    requires Covers(st2.ledger, RunOutputs(st, job, svc, rates, q).stores.ledger)
    requires Replayed(st, st2, job, svc, rates, q[..|q| - 1])
    ensures Replayed(st, st2, job, svc, rates, q)
  {
    var p := q[..|q| - 1];
    var ap := RunOutputs(st, job, svc, rates, p);
    var bp := RunOutputs(st2, job, svc, rates, p);
    KeysOfSnoc(q);
    StepMirrors(ap.stores, bp.stores, st, st2, KeysOf(p), p != [], job, svc, rates, q[|q| - 1]);
  }

  /**
   * Replaying outputs over stores whose ledger covers the first run's
   * result: the replay runs to the end with the same verdict, gives every
   * processed key the first run's record, leaves other keys alone and
   * enqueues again what the first run enqueued.
   */
  lemma {:induction false} Replay(st: Stores, st2: Stores, job: Job, svc: Services, rates: map<string, real>, q: seq<Output>)
    requires RunOutputs(st, job, svc, rates, q).Running?
    requires Covers(st2.ledger, RunOutputs(st, job, svc, rates, q).stores.ledger)
    ensures Replayed(st, st2, job, svc, rates, q)
    decreases |q|
  {
    if q != [] {
      var p := q[..|q| - 1];
      var ap := RunOutputs(st, job, svc, rates, p);
      assert ap.Running?;
      StepKeepsFields(ap.stores, job, svc, rates, q[|q| - 1]);
      assert Covers(st2.ledger, ap.stores.ledger);
      Replay(st, st2, job, svc, rates, p);
      ReplayStepRun(st, st2, job, svc, rates, q);
    }
  }

  /** What a second loop over the first loop's result gives: same ledger, staging and verdict; the same jobs again. */
  ghost predicate RanTwice(st: Stores, job: Job, svc: Services, rates: map<string, real>, outs: seq<Output>) {
    var a := RunOutputs(st, job, svc, rates, outs);
    var b := RunOutputs(a.stores, job, svc, rates, outs);
    && b.Running? == a.Running?
    && (a.Running? ==> b.allFinal == a.allFinal)
    && (a.Stopped? ==> b.error == a.error)
    && b.stores.ledger == a.stores.ledger
    && b.stores.staging == a.stores.staging
    && |st.queue| <= |a.stores.queue|
    && b.stores.queue == a.stores.queue + a.stores.queue[|st.queue|..]
  }

  /** The second loop after a first loop that stopped at output `n`: it stops there too. */
  lemma RunTwiceStopped(st: Stores, job: Job, svc: Services, rates: map<string, real>, outs: seq<Output>)
    requires RunOutputs(st, job, svc, rates, outs).Stopped?
    ensures RanTwice(st, job, svc, rates, outs)
  {
    var a := RunOutputs(st, job, svc, rates, outs);
    RunQueue(st, job, svc, rates, outs);
    var n := StoppedAt(st, job, svc, rates, outs);
    var prefix := outs[..n];
    Replay(st, a.stores, job, svc, rates, prefix);
    RunStaging(st, job, svc, rates, prefix);
    var b := RunOutputs(a.stores, job, svc, rates, prefix);
    assert b.stores.ledger == a.stores.ledger;
    assert ProcessOutput(b.stores, job, svc, rates, outs[n]) == Failure(a.error);
    StaysStopped(a.stores, job, svc, rates, outs, n);
  }

  /**
   * Running the output loop a second time over its own result changes neither
   * the ledger nor the staging store nor the verdict, and appends to the
   * queue the same jobs the first run appended.
   */
  lemma RunTwice(st: Stores, job: Job, svc: Services, rates: map<string, real>, outs: seq<Output>)
    ensures RanTwice(st, job, svc, rates, outs)
  {
    var a := RunOutputs(st, job, svc, rates, outs);
    if a.Running? {
      RunQueue(st, job, svc, rates, outs);
      Replay(st, a.stores, job, svc, rates, outs);
      RunStaging(st, job, svc, rates, outs);
      var b := RunOutputs(a.stores, job, svc, rates, outs);
      assert b.stores.ledger == a.stores.ledger;
    } else {
      RunTwiceStopped(st, job, svc, rates, outs);
    }
  }

  /**
   * Idempotence under redelivery: processing the same job again gives the
   * same outcome and leaves the ledger and the staging store as the first
   * run left them, so no record is duplicated or recomputed; but every
   * transaction the first run forwarded is forwarded again.
   */
  lemma RedeliveryIsIdempotentOnLedger(st: Stores, job: Job, svc: Services)
    ensures var first := ProcessJob(st, job, svc);
            var second := ProcessJob(first.stores, job, svc);
            && second.result == first.result
            && second.stores.ledger == first.stores.ledger
            && second.stores.staging == first.stores.staging
            && |st.queue| <= |first.stores.queue|
            && second.stores.queue == first.stores.queue + first.stores.queue[|st.queue|..]
  {
    if Scanned(job, svc) {
      RunTwice(st, job, svc, RatesOf(svc), OutputsOf(job, svc));
    }
  }
}
