/**
 * The reconciliation performed for one job, as pure functions over the
 * stores it touches. The processor class in processor.dfy is proved to
 * compute exactly `ProcessJob`; the lemmas here state what that means.
 */
module Reconcile {
  import opened Wrappers
  import opened Transactions
  import opened Policy

  /** The chain wallet serving one (direction, asset) pair. */
  datatype Wallet = Wallet(
    checkTransaction: (string, string) -> Result<seq<Output>, Error>,
    isFinalYet: (real, nat, real) -> bool)

  /**
   * Everything the processor consults but does not own: configuration,
   * wallets, the rate source, the address-mapping store and the Stellar
   * account query. Each call is a function of its arguments.
   */
  datatype Services = Services(
    config: string -> AssetConfig,
    wallets: (TransactionType, string) -> Wallet,
    getRates: Result<map<string, real>, Error>,
    findMapping: (string, string, Option<nat>) -> Result<Option<Mapping>, Error>,
    stellarCheckAccount: (string, string, string) -> Result<AccountStatus, Error>)

  /** The three stores the processor writes. */
  datatype Stores = Stores(
    ledger: map<TxKey, Transaction>,
    queue: seq<ForwardJob>,
    staging: set<Pending>)

  /** Every record is filed under its own dedup key. */
  ghost predicate WellKeyed(ledger: map<TxKey, Transaction>) {
    forall k :: k in ledger ==> KeyOf(ledger[k]) == k
  }

  /** The record with its state blanked out: the fields fixed when it was created. */
  function Committed(tx: Transaction): Transaction {
    tx.(state := PendingTrust)
  }

  /** `b` is `a` with at most its state changed. */
  predicate SameButState(a: Transaction, b: Transaction) {
    Committed(a) == Committed(b)
  }

  /** The job's wallet. */
  function WalletIn(job: Job, svc: Services): Wallet {
    svc.wallets(job.txType, job.asset)
  }

  /** The account query for a deposit destination, with the asset's issuer. */
  function CheckAccount(svc: Services, address: string, asset: string): Result<AccountStatus, Error> {
    svc.stellarCheckAccount(address, asset, svc.config(asset).issuer)
  }

  /** What is learnt about an output before the ledger is consulted. */
  datatype Observed = Observed(mapping: Option<Mapping>, status: AccountStatus)

  /**
   * Mapping lookup, then the account status: taken as existing and trusted
   * for a withdrawal, queried for a deposit (which dereferences the mapping).
   */
  function Observe(job: Job, svc: Services, o: Output): (r: Result<Observed, Error>)
    ensures svc.findMapping(o.asset, o.addressIn, o.addressInExtra).Failure?
            ==> r == Failure(svc.findMapping(o.asset, o.addressIn, o.addressInExtra).error)
    ensures job.txType == Withdrawal && svc.findMapping(o.asset, o.addressIn, o.addressInExtra).Success?
            ==> r.Success? && r.value.status == AccountStatus(true, true)
    ensures r.Success? ==> svc.findMapping(o.asset, o.addressIn, o.addressInExtra) == Success(r.value.mapping)
    ensures r.Success? && job.txType == Deposit ==> r.value.mapping.Some?
    ensures job.txType == Deposit && svc.findMapping(o.asset, o.addressIn, o.addressInExtra).Success?
            && svc.findMapping(o.asset, o.addressIn, o.addressInExtra).value.Some?
            ==> var m := svc.findMapping(o.asset, o.addressIn, o.addressInExtra).value.value;
                && (r.Success? <==> CheckAccount(svc, m.addressOut, o.asset).Success?)
                && (r.Success? ==> r.value.status == CheckAccount(svc, m.addressOut, o.asset).value)
                && (r.Failure? ==> r.error == CheckAccount(svc, m.addressOut, o.asset).error)
  {
    match svc.findMapping(o.asset, o.addressIn, o.addressInExtra)
    case Failure(e) => Failure(e)
    case Success(m) =>
      if job.txType == Withdrawal then Success(Observed(m, AccountStatus(true, true)))
      else if m.None? then Failure(AbsentMappingError)
      else
        match CheckAccount(svc, m.value.addressOut, o.asset)
        case Failure(e) => Failure(e)
        case Success(status) => Success(Observed(m, status))
  }

  /** The wallet's finality verdict for an output, at the snapshotted rate. */
  predicate OutputFinal(job: Job, svc: Services, rates: map<string, real>, o: Output) {
    WalletIn(job, svc).isFinalYet(o.value, o.confirmations, RateFor(rates, o.asset))
  }

  /** The state this run gives the output's record. */
  function OutputState(job: Job, svc: Services, rates: map<string, real>, o: Output, status: AccountStatus): TransactionState {
    DecideState(CheckLimits(job.txType, svc.config(o.asset), o.value), status.trusts, OutputFinal(job, svc, rates, o))
  }

  /** The fee a first sighting of the output is charged. */
  function OutputFee(job: Job, svc: Services, o: Output, status: AccountStatus): real {
    CalculateFee(job.txType, o.value, svc.config(o.asset), !status.accountExists)
  }

  /**
   * The record saved for an output: the existing record under its dedup key
   * with the new state, or a new record (which needs the mapping).
   */
  function Record(ledger: map<TxKey, Transaction>, job: Job, svc: Services, rates: map<string, real>, o: Output, obs: Observed): Result<Transaction, Error> {
    var key := KeyOfOutput(o);
    var state := OutputState(job, svc, rates, o, obs.status);
    if key in ledger then Success(ledger[key].(state := state))
    else if obs.mapping.None? then Failure(AbsentMappingError)
    else Success(NewTransaction(job.txType, o, obs.mapping.value, OutputFee(job, svc, o, obs.status), RateFor(rates, o.asset), state))
  }

  /** Whether the saved record is put on the forwarding queue. */
  predicate Forwards(job: Job, svc: Services, rates: map<string, real>, o: Output, obs: Observed, tx: Transaction) {
    ShouldForward(obs.status.trusts, OutputFinal(job, svc, rates, o), Batching(tx.txType, svc.config(tx.asset)))
  }

  /**
   * One turn of the output loop: observe, reuse or build the record, save it,
   * drop the staging marker, forward when ready
   * (src/transactions/temp-transactions.processor.ts:48-99).
   */
  function ProcessOutput(st: Stores, job: Job, svc: Services, rates: map<string, real>, o: Output): Result<Stores, Error> {
    match Observe(job, svc, o)
    case Failure(e) => Failure(e)
    case Success(obs) =>
      match Record(st.ledger, job, svc, rates, o, obs)
      case Failure(e) => Failure(e)
      case Success(tx) =>
        Success(Stores(
          st.ledger[KeyOfOutput(o) := tx],
          if Forwards(job, svc, rates, o, obs, tx) then st.queue + [ForwardJob([tx])] else st.queue,
          st.staging - {Pending(job.asset, job.hash)}))
  }

  /** Where the output loop stands: still running, or stopped by an error. */
  datatype Run = Running(stores: Stores, allFinal: bool) | Stopped(stores: Stores, error: Error)

  /**
   * The output loop over `outs`, in order, stopping at the first error, with
   * the `allFinal` accumulator (src/transactions/temp-transactions.processor.ts:45-101).
   */
  function RunOutputs(st: Stores, job: Job, svc: Services, rates: map<string, real>, outs: seq<Output>): Run
    decreases |outs|
  {
    if outs == [] then Running(st, true)
    else
      var prev := RunOutputs(st, job, svc, rates, outs[..|outs| - 1]);
      var o := outs[|outs| - 1];
      if prev.Stopped? then prev
      else
        match ProcessOutput(prev.stores, job, svc, rates, o)
        case Failure(e) => Stopped(prev.stores, e)
        case Success(next) => Running(next, prev.allFinal && OutputFinal(job, svc, rates, o))
  }

  /** A 404 is a benign "not found"; every other error is rethrown. */
  function Classify(e: Error): (r: JobResult)
    ensures r.NotFound? <==> e.status == Some(404)
    ensures r.NotFound? || r.Rethrown?
    ensures r.error == e
  {
    if e.status == Some(404) then NotFound(e) else Rethrown(e)
  }

  datatype Processed = Processed(stores: Stores, result: JobResult)

  /**
   * One job: scan the chain transaction, fetch rates, run the outputs, report;
   * errors are classified as in the catch. Models `process`,
   * src/transactions/temp-transactions.processor.ts:35-117.
   */
  function ProcessJob(st: Stores, job: Job, svc: Services): Processed {
    match WalletIn(job, svc).checkTransaction(job.asset, job.hash)
    case Failure(e) => Processed(st, Classify(e))
    case Success(outputs) =>
      match svc.getRates
      case Failure(e) => Processed(st, Classify(e))
      case Success(rates) =>
        match RunOutputs(st, job, svc, rates, outputs)
        case Stopped(s, e) => Processed(s, Classify(e))
        case Running(s, allFinal) => Processed(s, if allFinal then Completed else NotFinal)
  }
}
