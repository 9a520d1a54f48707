/**
 * The processor's pure policy layer: fee, limits, batching, the state
 * decision and the rate snapshot, all over one asset's configuration.
 */
module Policy {
  import opened Wrappers
  import opened Transactions

  datatype DepositConfig = DepositConfig(
    feePercent: real,
    feeFixed: real,
    feeCreate: real,
    min: Option<real>,
    max: Option<real>)

  datatype WithdrawalConfig = WithdrawalConfig(
    feePercent: real,
    feeFixed: real,
    min: Option<real>,
    max: Option<real>)

  /** One asset's configuration; `issuer` is the Stellar issuing account. */
  datatype AssetConfig = AssetConfig(
    deposit: DepositConfig,
    withdrawal: WithdrawalConfig,
    withdrawalBatching: bool,
    issuer: string)

  /**
   * The fee charged on `amount`. `needsFunding` (the destination account does
   * not exist yet) adds the account-creation fee, and only for deposits.
   * Models `calculateFee`, src/transactions/temp-transactions.processor.ts:124-136.
   */
  function CalculateFee(txType: TransactionType, amount: real, cfg: AssetConfig, needsFunding: bool): real {
    if txType == Deposit then
      amount * cfg.deposit.feePercent + cfg.deposit.feeFixed + (if needsFunding then cfg.deposit.feeCreate else 0.0)
    else
      amount * cfg.withdrawal.feePercent + cfg.withdrawal.feeFixed
  }

  /**
   * A configured bound takes effect only when present and non-zero: the
   * source tests it for truthiness, and the number 0 is falsy.
   */
  predicate InForce(bound: Option<real>) {
    bound.Some? && bound.value != 0.0
  }

  function MinFor(txType: TransactionType, cfg: AssetConfig): Option<real> {
    if txType == Deposit then cfg.deposit.min else cfg.withdrawal.min
  }

  function MaxFor(txType: TransactionType, cfg: AssetConfig): Option<real> {
    if txType == Deposit then cfg.deposit.max else cfg.withdrawal.max
  }

  predicate BelowMin(txType: TransactionType, cfg: AssetConfig, value: real) {
    InForce(MinFor(txType, cfg)) && value < MinFor(txType, cfg).value
  }

  predicate AboveMax(txType: TransactionType, cfg: AssetConfig, value: real) {
    InForce(MaxFor(txType, cfg)) && value > MaxFor(txType, cfg).value
  }

  /** The limit violation of `value`, if any; the minimum is checked first. */
  function CheckLimits(txType: TransactionType, cfg: AssetConfig, value: real): (r: Option<TransactionState>)
    ensures r.None? || r.value == TooSmall || r.value == TooLarge
  {
    var lo := MinFor(txType, cfg);
    var hi := MaxFor(txType, cfg);
    if lo.Some? && lo.value != 0.0 && value < lo.value then Some(TooSmall)
    else if hi.Some? && hi.value != 0.0 && value > hi.value then Some(TooLarge)
    else None
  }

  /**
   * Whether ready transactions of this kind wait for a batch instead of being
   * forwarded. Models `batching`, src/transactions/temp-transactions.processor.ts:138-141.
   */
  function Batching(txType: TransactionType, cfg: AssetConfig): bool {
    txType == Withdrawal && cfg.withdrawalBatching
  }

  /**
   * The state written on every run: a limit violation, else the trust and
   * finality verdict.
   */
  function DecideState(limit: Option<TransactionState>, trusts: bool, isFinal: bool): (s: TransactionState)
    ensures s.Downstream? ==> limit.Some? && limit.value.Downstream?
  {
    if limit.Some? then limit.value
    else if trusts then (if isFinal then PendingAnchor else PendingExternal)
    else PendingTrust
  }

  /** The enqueue condition checked after saving. */
  predicate ShouldForward(trusts: bool, isFinal: bool, batching: bool) {
    trusts && isFinal && !batching
  }

  /** The USD rate snapshot: the published rate, or 0 when the asset has none. */
  function RateFor(rates: map<string, real>, asset: string): (r: real)
    ensures asset !in rates ==> r == 0.0
    ensures asset in rates ==> r == rates[asset]
  {
    if asset in rates then rates[asset] else 0.0
  }

  // ---------------------------------------------------------------------
  // Properties of the policy layer

  /** A deposit pays percentage plus fixed fee, plus the creation fee exactly when funding is needed. */
  lemma DepositFee(amount: real, cfg: AssetConfig, needsFunding: bool)
    ensures CalculateFee(Deposit, amount, cfg, false) == amount * cfg.deposit.feePercent + cfg.deposit.feeFixed
    ensures CalculateFee(Deposit, amount, cfg, true) == CalculateFee(Deposit, amount, cfg, false) + cfg.deposit.feeCreate
    ensures CalculateFee(Deposit, amount, cfg, needsFunding) != CalculateFee(Deposit, amount, cfg, false)
            <==> needsFunding && cfg.deposit.feeCreate != 0.0
  {
  }

  /** A withdrawal pays percentage plus fixed fee, whatever the funding flag says. */
  lemma WithdrawalFee(amount: real, cfg: AssetConfig, needsFunding: bool)
    ensures CalculateFee(Withdrawal, amount, cfg, needsFunding) == amount * cfg.withdrawal.feePercent + cfg.withdrawal.feeFixed
    ensures CalculateFee(Withdrawal, amount, cfg, needsFunding) == CalculateFee(Withdrawal, amount, cfg, !needsFunding)
  {
  }

  /**
   * The limit check is an ordered decision: below the minimum wins even when
   * the maximum is also exceeded; above the maximum counts only otherwise.
   */
  lemma LimitsOrdered(txType: TransactionType, cfg: AssetConfig, value: real)
    ensures CheckLimits(txType, cfg, value) == Some(TooSmall) <==> BelowMin(txType, cfg, value)
    ensures CheckLimits(txType, cfg, value) == Some(TooLarge)
            <==> !BelowMin(txType, cfg, value) && AboveMax(txType, cfg, value)
    ensures CheckLimits(txType, cfg, value) == None
            <==> !BelowMin(txType, cfg, value) && !AboveMax(txType, cfg, value)
  {
  }

  /** The limits consulted are those of the transaction's own direction. */
  lemma LimitsFollowDirection(cfg: AssetConfig, value: real)
    ensures CheckLimits(Deposit, cfg, value) == CheckLimits(Deposit, cfg.(withdrawal := cfg.withdrawal.(min := None, max := None)), value)
    ensures CheckLimits(Withdrawal, cfg, value) == CheckLimits(Withdrawal, cfg.(deposit := cfg.deposit.(min := None, max := None)), value)
  {
  }

  /** Only withdrawals of an asset configured for batching are batched. */
  lemma BatchingOnlyForConfiguredWithdrawals(txType: TransactionType, cfg: AssetConfig)
    ensures Batching(txType, cfg) <==> txType == Withdrawal && cfg.withdrawalBatching
    ensures Batching(Deposit, cfg) == false
  {
  }

  /** The state decision table, limits first. */
  lemma StateDecisionTable(limit: Option<TransactionState>, trusts: bool, isFinal: bool)
    requires limit.None? || limit.value == TooSmall || limit.value == TooLarge
    ensures limit.Some? ==> DecideState(limit, trusts, isFinal) == limit.value
    ensures DecideState(limit, trusts, isFinal) == PendingAnchor <==> limit.None? && trusts && isFinal
    ensures DecideState(limit, trusts, isFinal) == PendingExternal <==> limit.None? && trusts && !isFinal
    ensures DecideState(limit, trusts, isFinal) == PendingTrust <==> limit.None? && !trusts
  {
  }

  /** With trust granted (always so for withdrawals) the state is never `pending_trust`. */
  lemma TrustedNeverPendingTrust(txType: TransactionType, cfg: AssetConfig, value: real, isFinal: bool)
    ensures DecideState(CheckLimits(txType, cfg, value), true, isFinal) != PendingTrust
    ensures !DecideState(CheckLimits(txType, cfg, value), true, isFinal).Downstream?
  {
  }

  /**
   * A forwarded transaction is settlement-ready or carries a limit violation:
   * the enqueue condition does not consult the limits.
   */
  lemma ForwardedState(limit: Option<TransactionState>, trusts: bool, isFinal: bool, batching: bool)
    requires limit.None? || limit.value == TooSmall || limit.value == TooLarge
    requires ShouldForward(trusts, isFinal, batching)
    ensures DecideState(limit, trusts, isFinal) in {PendingAnchor, TooSmall, TooLarge}
    ensures limit.None? ==> DecideState(limit, trusts, isFinal) == PendingAnchor
  {
  }

  /**
   * The worked fee example: amount 100, 2% plus 1 fixed plus 5 for creating
   * the account gives a fee of 8 and 92 to pay out.
   */
  lemma DepositFeeExample(cfg: AssetConfig)
    requires cfg.deposit.feePercent == 0.02 && cfg.deposit.feeFixed == 1.0 && cfg.deposit.feeCreate == 5.0
    ensures CalculateFee(Deposit, 100.0, cfg, true) == 8.0
    ensures 100.0 - CalculateFee(Deposit, 100.0, cfg, true) == 92.0
    ensures CalculateFee(Deposit, 100.0, cfg, false) == 3.0
  {
  }

  /** Nothing keeps the amount paid out from going negative when the fee exceeds the amount. */
  lemma AmountOutMayBeNegative(cfg: AssetConfig)
    requires cfg.deposit.feePercent == 0.0 && cfg.deposit.feeFixed == 1.0
    requires cfg.deposit.min == None && cfg.deposit.max == None
    ensures CheckLimits(Deposit, cfg, 0.5).None?
    ensures 0.5 - CalculateFee(Deposit, 0.5, cfg, false) < 0.0
  {
  }
}
