/** The previews of apps/web/src/credit-experience.ts, and when they agree with the contracts. */
module CreditPreview {
  import opened Evm
  import opened MockUsd
  import opened CreditVault
  import Risk = RiskEngine
  import Core = ReserveFlowCore

  datatype Health = Infinite | Bps(value: nat)

  datatype RiskView = RiskView(creditLimitWad: nat, availableCreditWad: nat, healthFactorBps: Health,
                               status: Risk.RiskStatus)

  /** The snapshot as the web application reads it. */
  function View(s: Risk.RiskSnapshot): RiskView {
    RiskView(s.creditLimitWad, s.availableCreditWad, if s.healthIsInfinite then Infinite else Bps(s.healthFactorBps),
             s.status)
  }

  datatype Code =
    | BORROWING_PAUSED | ZERO_AMOUNT | STALE_PRICE | STALE_RESERVE | ACCOUNT_FROZEN | CREDIT_NOT_HEALTHY
    | CREDIT_LIMIT_EXCEEDED | EXCESS_REPAYMENT | INSUFFICIENT_RFUSD_BALANCE

  datatype Blocking = Clear | Blocked(code: Code)

  function AvailableCredit(limit: nat, principal: nat): nat {
    if limit > principal then limit - principal else 0
  }

  function HealthFactor(limit: nat, principal: nat): Health {
    if principal == 0 then Infinite else Bps(limit * Risk.BASIS_POINTS / principal)
  }

  function BorrowBlockCode(status: Risk.RiskStatus, amount: nat, risk: RiskView): Blocking {
    if amount == 0 then Blocked(ZERO_AMOUNT)
    else if status.PriceStale? then Blocked(STALE_PRICE)
    else if status.ReserveStale? then Blocked(STALE_RESERVE)
    else if status.Frozen? then Blocked(ACCOUNT_FROZEN)
    else if status.Warning? || status.MarginCall? then Blocked(CREDIT_NOT_HEALTHY)
    else if amount > risk.availableCreditWad then Blocked(CREDIT_LIMIT_EXCEEDED)
    else Clear
  }

  datatype BorrowPreview = BorrowPreview(allowed: bool, availableCreditWad: nat, blocking: Blocking,
                                         healthFactorBps: Health, principalWad: nat)

  function BuildBorrowPreview(amount: nat, paused: bool, principal: nat, risk: RiskView): BorrowPreview {
    var projected := principal + amount;
    var blocking := if paused then Blocked(BORROWING_PAUSED) else BorrowBlockCode(risk.status, amount, risk);
    BorrowPreview(blocking == Clear, AvailableCredit(risk.creditLimitWad, projected), blocking,
                  HealthFactor(risk.creditLimitWad, projected), projected)
  }

  datatype RepaymentPreview =
    | Refused(code: Code)
    | Approve(availableCreditWad: nat, principalWad: nat)
    | Repay(availableCreditWad: nat, principalWad: nat)

  function BuildRepaymentPreview(allowance: nat, amount: nat, balance: nat, principal: nat, risk: RiskView)
    : RepaymentPreview
  {
    if amount == 0 then Refused(ZERO_AMOUNT)
    else if amount > principal then Refused(EXCESS_REPAYMENT)
    else if allowance < amount then
      Approve(AvailableCredit(risk.creditLimitWad, principal - amount), principal - amount)
    else if balance < amount then Refused(INSUFFICIENT_RFUSD_BALANCE)
    else Repay(AvailableCredit(risk.creditLimitWad, principal - amount), principal - amount)
  }

  // ---- Borrowing ----------------------------------------------------------------

  predicate SameReason(code: Code, e: Error) {
    match code
    case BORROWING_PAUSED => e == BorrowingPaused
    case ZERO_AMOUNT => e == ZeroAmount
    case STALE_PRICE => e == StalePrice
    case STALE_RESERVE => e == StaleReserve
    case ACCOUNT_FROZEN => e == AccountFrozen
    case CREDIT_NOT_HEALTHY => e == CreditNotHealthy
    case CREDIT_LIMIT_EXCEEDED => e == CreditLimitExceeded
    case _ => false
  }

  /** On a snapshot of the current principal, the preview allows a borrow exactly when the vault accepts it,
      up to the vault's own rfUSD. A refusal names the vault's reason, except that a pause hides a zero amount
      and that a debt beyond the word range is a panic in the vault. */
  lemma BorrowPreviewExact(v: VaultState, tok: TokenState, risk: Risk.RiskState,
                           accounts: map<Bytes32, Core.ReserveAccount>,
                           self: Address, b: Address, env: Env, amount: uint256)
    requires v.token != ZERO_ADDRESS && self != ZERO_ADDRESS && b != ZERO_ADDRESS && b in v.positions
    requires risk.GetSnapshot(accounts, env, v.positions[b].reserveAccountId, v.positions[b].principalWad).Ok?
    ensures var principal := v.positions[b].principalWad;
      var s := risk.GetSnapshot(accounts, env, v.positions[b].reserveAccountId, principal).value;
      var preview := BuildBorrowPreview(amount, v.borrowingPaused, principal, View(s));
      var borrow := v.Borrow(tok, risk, accounts, self, b, env, amount);
      && (borrow.Ok? <==> preview.allowed && amount <= tok.BalanceOf(self))
      && preview.principalWad == principal + amount
      && (borrow.Ok? ==> borrow.value.0.Principal(b) == preview.principalWad)
      && (!preview.allowed ==> borrow.Revert?)
      && (!preview.allowed ==>
            (SameReason(preview.blocking.code, borrow.error) <==>
               !(v.borrowingPaused && amount == 0)
               && (v.borrowingPaused || amount == 0 || s.status != Risk.Healthy || principal + amount <= MAX_UINT256)))
  {}

  /** What the preview projects is what the engine reports at the new debt, whenever it reports anything. */
  lemma BorrowProjectionExact(risk: Risk.RiskState, accounts: map<Bytes32, Core.ReserveAccount>, env: Env, id: Bytes32,
                              principal: uint256, amount: uint256, paused: bool)
    requires principal + amount <= MAX_UINT256
    requires risk.GetSnapshot(accounts, env, id, principal).Ok?
    requires risk.GetSnapshot(accounts, env, id, principal + amount).Ok?
    ensures var before := View(risk.GetSnapshot(accounts, env, id, principal).value);
      var after := View(risk.GetSnapshot(accounts, env, id, principal + amount).value);
      var preview := BuildBorrowPreview(amount, paused, principal, before);
      preview.availableCreditWad == after.availableCreditWad && preview.healthFactorBps == after.healthFactorBps
  {}

  // ---- Repaying -----------------------------------------------------------------

  /** A repayment goes through exactly when REPAY is shown and the amount is not reserved for XRP repayments. */
  lemma RepayPreviewExact(v: VaultState, tok: TokenState, risk: RiskView, self: Address, b: Address, now: uint64,
                          amount: uint256)
    requires v.token != ZERO_ADDRESS && self != ZERO_ADDRESS && b != ZERO_ADDRESS && b in v.positions
    requires v.Pending(b) <= v.Principal(b)
    ensures var preview := BuildRepaymentPreview(tok.Allowance(b, self), amount, tok.BalanceOf(b), v.Principal(b),
                                                 risk);
      var repay := v.Repay(tok, self, b, now, amount);
      && (repay.Ok? <==> preview.Repay? && amount <= v.Principal(b) - v.Pending(b))
      && (repay.Ok? ==> repay.value.0.Principal(b) == preview.principalWad)
      && (v.Pending(b) == 0 ==> (repay.Ok? <==> preview.Repay?))
      && (repay.Revert? && preview.Repay? ==> repay.error == RepaymentReserved)
  {}

  /** What the preview shows instead of REPAY is what stands in the way: with nothing reserved, APPROVE is shown
      exactly when the vault would miss the allowance, and a refusal names the vault's reason. */
  lemma RepayPreviewReasons(v: VaultState, tok: TokenState, risk: RiskView, self: Address, b: Address, now: uint64,
                            amount: uint256)
    requires v.token != ZERO_ADDRESS && b in v.positions && v.Pending(b) == 0
    ensures var preview := BuildRepaymentPreview(tok.Allowance(b, self), amount, tok.BalanceOf(b), v.Principal(b),
                                                 risk);
      var repay := v.Repay(tok, self, b, now, amount);
      && (preview.Approve? <==> repay == Revert(InsufficientRfUsdAllowance))
      && (preview == Refused(ZERO_AMOUNT) <==> repay == Revert(ZeroAmount))
      && (preview == Refused(EXCESS_REPAYMENT) <==> repay == Revert(ExcessRepayment))
      && (preview == Refused(INSUFFICIENT_RFUSD_BALANCE) <==> repay == Revert(InsufficientRfUsdBalance))
      && (preview.Approve? <==> 0 < amount <= v.Principal(b) && tok.Allowance(b, self) < amount)
      && (preview.Approve? ==> preview.principalWad == v.Principal(b) - amount)
  {}

  /** The credit the preview shows after a repayment is the engine's answer at the reduced principal, whether the
      allowance is still missing or not. */
  lemma RepayProjectionExact(risk: Risk.RiskState, accounts: map<Bytes32, Core.ReserveAccount>, env: Env, id: Bytes32,
                             principal: uint256, amount: uint256, allowance: nat, balance: nat)
    requires 0 < amount <= principal && (allowance < amount || amount <= balance)
    requires risk.GetSnapshot(accounts, env, id, principal).Ok?
    requires risk.GetSnapshot(accounts, env, id, principal - amount).Ok?
    ensures var before := View(risk.GetSnapshot(accounts, env, id, principal).value);
      var after := View(risk.GetSnapshot(accounts, env, id, principal - amount).value);
      BuildRepaymentPreview(allowance, amount, balance, principal, before)
        == if allowance < amount then Approve(after.availableCreditWad, principal - amount)
           else Repay(after.availableCreditWad, principal - amount)
  {}
}
