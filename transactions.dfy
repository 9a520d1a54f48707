/**
 * The entities the temp-transactions processor reads and writes: jobs,
 * observed chain outputs, address mappings, ledger transactions, forwarding
 * jobs and the staging markers.
 */
module Transactions {
  import opened Wrappers
  import Decimal

  datatype TransactionType = Deposit | Withdrawal

  /**
   * The states a ledger transaction can be in. The five this processor writes
   * are named; `Downstream` stands for any state a later stage may have put on
   * a record that this processor finds and overwrites.
   */
  datatype TransactionState =
    | PendingTrust
    | PendingExternal
    | PendingAnchor
    | TooSmall
    | TooLarge
    | Downstream(name: string)

  /** A processing request: which wallet direction, which asset, which chain transaction. */
  datatype Job = Job(txType: TransactionType, asset: string, hash: string)

  /** One value transfer to one of our addresses, as the chain adapter reports it. */
  datatype Output = Output(
    asset: string,
    txIn: string,
    txInIndex: int,
    addressFrom: string,
    addressIn: string,
    addressInExtra: Option<nat>,
    value: real,
    confirmations: nat)

  /** Where the funds arriving at an inbound address must go. */
  datatype Mapping = Mapping(addressOut: string, addressOutExtra: Option<string>)

  /** Result of the destination-account query. */
  datatype AccountStatus = AccountStatus(accountExists: bool, trusts: bool)

  /** The dedup key of a ledger record: chain input reference and index. */
  datatype TxKey = TxKey(txIn: string, txInIndex: int)

  datatype Transaction = Transaction(
    txType: TransactionType,
    txIn: string,
    txInIndex: int,
    addressFrom: string,
    addressIn: string,
    addressInExtra: Option<string>,
    addressOut: string,
    addressOutExtra: Option<string>,
    asset: string,
    amountIn: real,
    amountFee: real,
    amountOut: real,
    rateUsd: real,
    refunded: bool,
    mapping: Mapping,
    state: TransactionState)

  /** The payload put on the downstream `transactions` queue. */
  datatype ForwardJob = ForwardJob(txs: seq<Transaction>)

  /** A staging-store marker: a chain transaction still awaiting processing. */
  datatype Pending = Pending(asset: string, hash: string)

  /** A thrown error; `status` is the HTTP-like status some errors carry. */
  datatype Error = Error(status: Option<int>, message: string)

  /** How a job ends, as reported to the queue. */
  datatype JobResult =
    | Completed      // done(null, job.data)
    | NotFinal       // done(new Error('not final'))
    | NotFound(error: Error)  // a 404, logged and passed to done(err)
    | Rethrown(error: Error)  // any other error, thrown out of the handler

  function KeyOfOutput(o: Output): TxKey {
    TxKey(o.txIn, o.txInIndex)
  }

  function KeyOf(tx: Transaction): TxKey {
    TxKey(tx.txIn, tx.txInIndex)
  }

  /** The error a property access on an absent mapping raises: it has no status. */
  const AbsentMappingError := Error(None, "TypeError: mapping is absent")

  /**
   * The stored form of the inbound extra tag: its decimal string, or absent
   * when the tag is absent or is the falsy number 0.
   */
  function ExtraToString(extra: Option<nat>): (r: Option<string>)
    ensures r.None? <==> extra.None? || extra.value == 0
    ensures r.Some? ==> (forall i :: 0 <= i < |r.value| ==> Decimal.IsDigit(r.value[i]))
                        && Decimal.DecimalValue(r.value) == extra.value
                        && r.value[0] != '0'
  {
    if extra.Some? && extra.value != 0 then
      Decimal.DecimalRoundTrip(extra.value);
      Some(Decimal.NatToDecimal(extra.value))
    else None
  }

  /**
   * The record built for an output seen for the first time. Amount, fee and
   * rate are fixed here; `state` is set by the caller.
   */
  function NewTransaction(txType: TransactionType, o: Output, m: Mapping, fee: real, rateUsd: real, state: TransactionState): (tx: Transaction)
    ensures KeyOf(tx) == KeyOfOutput(o)
    ensures tx.amountIn == o.value && tx.amountFee == fee && tx.amountOut == tx.amountIn - tx.amountFee
    ensures tx.rateUsd == rateUsd && !tx.refunded && tx.state == state
    ensures tx.addressOut == m.addressOut && tx.addressOutExtra == m.addressOutExtra && tx.mapping == m
    ensures tx.txType == txType && tx.asset == o.asset
    ensures tx.addressFrom == o.addressFrom && tx.addressIn == o.addressIn
    ensures tx.addressInExtra == ExtraToString(o.addressInExtra)
  {
    Transaction(
      txType := txType,
      txIn := o.txIn,
      txInIndex := o.txInIndex,
      addressFrom := o.addressFrom,
      addressIn := o.addressIn,
      addressInExtra := ExtraToString(o.addressInExtra),
      addressOut := m.addressOut,
      addressOutExtra := m.addressOutExtra,
      asset := o.asset,
      amountIn := o.value,
      amountFee := fee,
      amountOut := o.value - fee,
      rateUsd := rateUsd,
      refunded := false,
      mapping := m,
      state := state)
  }
}
