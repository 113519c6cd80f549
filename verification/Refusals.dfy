/** What a refusal says: the error a reverted transaction returns names a check that really fails. */
module Refusals {
  import opened Evm
  import opened AccessControl
  import opened MockUsd
  import opened CreditVault
  import opened Protocol
  import opened Wiring
  import opened Reservations
  import opened CreditMath
  import opened Rounding
  import opened Safety
  import opened Authority
  import opened Acceptance
  import CreditLines
  import Lifecycle
  import Core = ReserveFlowCore
  import Risk = RiskEngine
  import Router = XrpRepaymentRouter
  import Inv = InvoiceRegistry

  predicate RoleRefused(roles: Roles, sender: Address, op: RoleOp, e: Error) {
    if op.RenounceRole? then e == BadConfirmation && op.account != sender
    else e == UnauthorizedAccount && sender !in roles.admins
  }

  // ---- Core ---------------------------------------------------------------------

  /** The checks the two submissions share. */
  predicate PaymentRefused(w: World, tx: Tx, id: Bytes32, p: Payment, e: Error) {
    if id !in w.core.accounts then e == AccountNotFound
    else
      var a := w.core.accounts[id];
      match e
      case AccountNotActive => a.status != Core.Active
      case UnauthorizedProofSubmitter => tx.sender != a.borrower
      case InvalidFdcProof => !tx.env.proofValid
      case UnsupportedProofSource => p.sourceId != TEST_XRP
      case ProofOwnerMismatch => p.proofOwner != a.borrower
      case InvalidPaymentStatus => p.status != 0
      case ProofAlreadyUsed => p.Id() in w.core.usedProofs
      case ProofAlreadyConsumed => p.Id() in w.registry.consumed
      case UnauthorizedAccount => w.at.core !in w.registry.roles.operators
      case OutOfOrderLedger => p.blockNumber <= a.lastExternalLedger
      case InvalidPaymentAmount =>
        (if p.receivingAddressHash == a.externalAddressHash then p.receivedAmount else p.spentAmount) <= 0
      case Panic => a.balanceDrops + p.receivedAmount > MAX_UINT256
      case _ => false
  }

  predicate InvoicePaymentRefused(w: World, tx: Tx, id: Bytes32, k: Bytes32, p: Payment, e: Error) {
    || PaymentRefused(w, tx, id, p, e)
    || (e == AccountAddressMismatch && id in w.core.accounts
        && p.receivingAddressHash != w.core.accounts[id].externalAddressHash)
    || InvoiceRefused(w, k, p, e)
  }

  predicate CoreRefuses(w: World, tx: Tx, c: CoreCall, e: Error) {
    var unauthorized := e == UnauthorizedAccount && tx.sender !in w.core.roles.operators;
    match c
    case SetBorrowerApproval(b, _) => unauthorized || (e == ZeroAddress && b == ZERO_ADDRESS)
    case SetProofRegistry(r) => unauthorized || (if r == ZERO_ADDRESS then e == ZeroAddress
                                                 else e == IntegrationAlreadyConfigured)
    case SetInvoiceRegistry(r) => unauthorized || (if r == ZERO_ADDRESS then e == ZeroAddress
                                                   else e == IntegrationAlreadyConfigured)
    case RegisterReserveAccount(h) =>
      || (e == BorrowerNotApproved && tx.sender !in w.core.approvedBorrowers)
      || (e == AccountAddressMismatch && h == ZERO_BYTES32)
      || (e == AccountAlreadyExists && AccountId(tx.sender, TEST_XRP, h) in w.core.accounts)
    case ApproveReserveAccount(id) =>
      unauthorized || (if id !in w.core.accounts then e == AccountNotFound
                       else e == AccountNotPendingApproval && w.core.accounts[id].status != Core.PendingApproval)
    case SetReserveAccountFrozen(id, frozen) =>
      unauthorized || (if id !in w.core.accounts then e == AccountNotFound
                       else if frozen then e == AccountNotActive && w.core.accounts[id].status != Core.Active
                       else e == AccountNotFrozen && w.core.accounts[id].status != Core.Frozen)
    case SubmitXrpPaymentProof(id, p) =>
      || PaymentRefused(w, tx, id, p, e)
      || (id in w.core.accounts
          && var (a, h) := (w.core.accounts[id], w.core.accounts[id].externalAddressHash);
          || (e == AccountAddressMismatch && (p.receivingAddressHash == h <==> p.sourceAddressHash == h))
          || (e == InsufficientReserveBalance && p.spentAmount > a.balanceDrops))
    case SubmitInvoicePaymentProof(id, k, p) => InvoicePaymentRefused(w, tx, id, k, p, e)
    case ChangeCoreRole(op) => RoleRefused(w.core.roles, tx.sender, op, e)
  }

  predicate InvoiceRefused(w: World, k: Bytes32, p: Payment, e: Error) {
    if k !in w.invoices.invoices then e == InvoiceNotFound
    else
      var i := w.invoices.invoices[k];
      match e
      case InvoiceNotOpen => i.status != Inv.Open
      case InvoicePastDue => p.blockTimestamp > i.dueAt
      case PayerMismatch => p.sourceAddressHash != i.payerAddressHash
      case PaymentAmountTooLow => p.receivedAmount < i.minimumAmountDrops
      case MemoMismatch => MemoHash(p.firstMemoData) != i.memoHash
      case _ => false
  }

  lemma CoreExplains(w: World, tx: Tx, c: CoreCall, e: Error)
    requires Wired(w) && StepCore(w, tx, c) == Revert(e)
    ensures CoreRefuses(w, tx, c, e)
  {
    assert w.at.proofRegistry in w.at.All() && w.at.invoiceRegistry in w.at.All();
    match c
    case SubmitXrpPaymentProof(id, p) => PaymentExplains(w, tx, id, p, e);
    case SubmitInvoicePaymentProof(id, k, p) => InvoicePaymentExplains(w, tx, id, k, p, e);
    case _ => {}
  }

  /** Account, sender, verifier and source are in order. */
  predicate WellFormed(w: World, tx: Tx, id: Bytes32, p: Payment) {
    && id in w.core.accounts
    && var a := w.core.accounts[id];
    && a.status == Core.Active && tx.sender == a.borrower == p.proofOwner && tx.env.proofValid
    && p.sourceId == TEST_XRP && p.status == 0
  }

  lemma MalformedPayment(w: World, tx: Tx, id: Bytes32, p: Payment, e: Error)
    requires !WellFormed(w, tx, id, p) && StepCore(w, tx, SubmitXrpPaymentProof(id, p)) == Revert(e)
    ensures PaymentRefused(w, tx, id, p, e)
  {}

  predicate Spendable(w: World, p: Payment) { w.core.ConsumeProof(w.registry, w.at.core, p.Id()).Ok? }

  lemma UnspendablePayment(w: World, tx: Tx, id: Bytes32, p: Payment, e: Error)
    requires WellFormed(w, tx, id, p) && !Spendable(w, p) && w.core.proofRegistry != ZERO_ADDRESS
    requires StepCore(w, tx, SubmitXrpPaymentProof(id, p)) == Revert(e)
    ensures w.core.ConsumeProof(w.registry, w.at.core, p.Id()) == Revert(e)
  {}

  lemma Unspendable(w: World, tx: Tx, id: Bytes32, p: Payment, e: Error)
    requires id in w.core.accounts && w.core.proofRegistry != ZERO_ADDRESS
    requires w.core.ConsumeProof(w.registry, w.at.core, p.Id()) == Revert(e)
    ensures PaymentRefused(w, tx, id, p, e)
  {}

  lemma UnfitPayment(w: World, tx: Tx, id: Bytes32, p: Payment, e: Error)
    requires WellFormed(w, tx, id, p) && Spendable(w, p)
    requires StepCore(w, tx, SubmitXrpPaymentProof(id, p)) == Revert(e)
    ensures CoreRefuses(w, tx, SubmitXrpPaymentProof(id, p), e)
  {}

  lemma PaymentExplains(w: World, tx: Tx, id: Bytes32, p: Payment, e: Error)
    requires w.core.proofRegistry != ZERO_ADDRESS && StepCore(w, tx, SubmitXrpPaymentProof(id, p)) == Revert(e)
    ensures CoreRefuses(w, tx, SubmitXrpPaymentProof(id, p), e)
  {
    if !WellFormed(w, tx, id, p) { MalformedPayment(w, tx, id, p, e); }
    else if !Spendable(w, p) { UnspendablePayment(w, tx, id, p, e); Unspendable(w, tx, id, p, e); }
    else { UnfitPayment(w, tx, id, p, e); }
  }

  lemma MalformedInvoicePayment(w: World, tx: Tx, id: Bytes32, k: Bytes32, p: Payment, e: Error)
    requires !WellFormed(w, tx, id, p) && w.core.invoiceRegistry != ZERO_ADDRESS
    requires StepCore(w, tx, SubmitInvoicePaymentProof(id, k, p)) == Revert(e)
    ensures PaymentRefused(w, tx, id, p, e)
  {}

  lemma UnspendableInvoicePayment(w: World, tx: Tx, id: Bytes32, k: Bytes32, p: Payment, e: Error)
    requires WellFormed(w, tx, id, p) && Received(w, id, p) && !Spendable(w, p)
    requires w.core.invoiceRegistry != ZERO_ADDRESS && StepCore(w, tx, SubmitInvoicePaymentProof(id, k, p)) == Revert(e)
    ensures w.core.ConsumeProof(w.registry, w.at.core, p.Id()) == Revert(e)
  {}

  lemma UnspendableInvoice(w: World, tx: Tx, id: Bytes32, k: Bytes32, p: Payment, e: Error)
    requires WellFormed(w, tx, id, p) && Received(w, id, p) && !Spendable(w, p)
    requires w.core.proofRegistry != ZERO_ADDRESS && w.core.invoiceRegistry != ZERO_ADDRESS
    requires StepCore(w, tx, SubmitInvoicePaymentProof(id, k, p)) == Revert(e)
    ensures PaymentRefused(w, tx, id, p, e)
  {
    UnspendableInvoicePayment(w, tx, id, k, p, e);
    Unspendable(w, tx, id, p, e);
  }

  lemma UnpaidInvoicePayment(w: World, tx: Tx, id: Bytes32, k: Bytes32, p: Payment, e: Error)
    requires WellFormed(w, tx, id, p) && Received(w, id, p) && Spendable(w, p) && Settlement(w, k, p).Revert?
    requires w.core.invoiceRegistry != ZERO_ADDRESS && w.invoices.core == w.at.core
    requires StepCore(w, tx, SubmitInvoicePaymentProof(id, k, p)) == Revert(e)
    ensures InvoiceRefused(w, k, p, e)
  {
    SettlementDecides(w, tx, id, k, p, e);
    UnpaidInvoice(w, k, p, e);
  }

  function Settlement(w: World, k: Bytes32, p: Payment): Outcome<Inv.InvoiceState>
    requires 0 < p.receivedAmount
  {
    w.invoices.Settle(w.at.core, k, p.Id(), p.sourceAddressHash, p.receivedAmount, p.blockTimestamp,
                      MemoHash(p.firstMemoData))
  }

  lemma UnpaidInvoice(w: World, k: Bytes32, p: Payment, e: Error)
    requires 0 < p.receivedAmount && w.invoices.core == w.at.core && Settlement(w, k, p) == Revert(e)
    ensures InvoiceRefused(w, k, p, e)
  {}

  /** What is left to go wrong once the proof can be spent and the invoice be settled. */
  lemma UnfitInvoicePayment(w: World, tx: Tx, id: Bytes32, k: Bytes32, p: Payment, e: Error)
    requires WellFormed(w, tx, id, p) && Spendable(w, p) && Received(w, id, p) && w.core.invoiceRegistry != ZERO_ADDRESS
    requires Settlement(w, k, p).Ok? && StepCore(w, tx, SubmitInvoicePaymentProof(id, k, p)) == Revert(e)
    ensures e == Panic && w.core.accounts[id].balanceDrops + p.receivedAmount > MAX_UINT256
  {}

  predicate Received(w: World, id: Bytes32, p: Payment) {
    && id in w.core.accounts && 0 < p.receivedAmount
    && p.receivingAddressHash == w.core.accounts[id].externalAddressHash
    && p.blockNumber > w.core.accounts[id].lastExternalLedger
  }

  lemma UnreceivedPayment(w: World, tx: Tx, id: Bytes32, k: Bytes32, p: Payment, e: Error)
    requires WellFormed(w, tx, id, p) && !Received(w, id, p) && w.core.invoiceRegistry != ZERO_ADDRESS
    requires StepCore(w, tx, SubmitInvoicePaymentProof(id, k, p)) == Revert(e)
    ensures InvoicePaymentRefused(w, tx, id, k, p, e)
  {}

  lemma SettlementDecides(w: World, tx: Tx, id: Bytes32, k: Bytes32, p: Payment, e: Error)
    requires WellFormed(w, tx, id, p) && Spendable(w, p) && Received(w, id, p) && w.core.invoiceRegistry != ZERO_ADDRESS
    requires Settlement(w, k, p).Revert? && StepCore(w, tx, SubmitInvoicePaymentProof(id, k, p)) == Revert(e)
    ensures Settlement(w, k, p) == Revert(e)
  {}

  lemma InvoicePaymentExplains(w: World, tx: Tx, id: Bytes32, k: Bytes32, p: Payment, e: Error)
    requires w.core.proofRegistry != ZERO_ADDRESS && w.core.invoiceRegistry != ZERO_ADDRESS
    requires w.invoices.core == w.at.core && StepCore(w, tx, SubmitInvoicePaymentProof(id, k, p)) == Revert(e)
    ensures InvoicePaymentRefused(w, tx, id, k, p, e)
  {
    if !WellFormed(w, tx, id, p) { MalformedInvoicePayment(w, tx, id, k, p, e); }
    else if !Received(w, id, p) { UnreceivedPayment(w, tx, id, k, p, e); }
    else if !Spendable(w, p) { UnspendableInvoice(w, tx, id, k, p, e); }
    else if Settlement(w, k, p).Revert? { UnpaidInvoicePayment(w, tx, id, k, p, e); }
    else { UnfitInvoicePayment(w, tx, id, k, p, e); }
  }

  // ---- Registries and configuration ---------------------------------------------

  predicate RegistryRefuses(w: World, tx: Tx, c: RegistryCall, e: Error) {
    match c
    case SetProofConsumer(a, _) =>
      || (e == UnauthorizedAccount && tx.sender !in w.registry.roles.admins)
      || (e == ZeroAddress && a == ZERO_ADDRESS)
    case Consume(id) =>
      || (e == UnauthorizedAccount && tx.sender !in w.registry.roles.operators)
      || (e == ProofAlreadyConsumed && id in w.registry.consumed)
    case ChangeRegistryRole(op) => RoleRefused(w.registry.roles, tx.sender, op, e)
  }

  predicate InvoicesRefuse(w: World, tx: Tx, c: InvoiceCall, e: Error) {
    match c
    case CreateInvoice(account, payer, minimum, due, memo) =>
      || (e == ZeroValue && (ZERO_BYTES32 in {account, payer, memo} || minimum == 0))
      || (e == InvalidDueAt && due <= tx.env.now)
      || (e == Panic && Lookup(w.invoices.nextNonce, tx.sender) == MAX_UINT256)
    case SettleFromCore(_, _, _, _, _, _) => e == OnlyCore
    case CancelInvoice(k) =>
      if k !in w.invoices.invoices then e == InvoiceNotFound
      else || (e == OnlyBorrower && tx.sender != w.invoices.invoices[k].borrower)
           || (e == InvoiceNotOpen && w.invoices.invoices[k].status != Inv.Open)
    case ExpireInvoice(k) =>
      if k !in w.invoices.invoices then e == InvoiceNotFound
      else || (e == InvalidDueAt && tx.env.now <= w.invoices.invoices[k].dueAt)
           || (e == InvoiceNotOpen && w.invoices.invoices[k].status != Inv.Open)
  }

  predicate RiskRefuses(w: World, tx: Tx, next: Risk.RiskConfig, e: Error) {
    || (e == UnauthorizedRiskAdmin && tx.sender != w.risk.riskAdmin)
    || (e == Panic && w.risk.version == 0xFFFF_FFFF_FFFF_FFFF)
    || (e == InvalidRiskConfig
        && (next.haircutBps > 10_000 || next.advanceRateBps > 10_000 || next.priceTtlSeconds == 0
            || next.reserveTtlSeconds == 0 || next.marginCallHealthBps == 0
            || next.warningHealthBps < next.marginCallHealthBps))
  }

  // ---- Token --------------------------------------------------------------------

  predicate TokenRefuses(w: World, tx: Tx, c: TokenCall, e: Error) {
    match c
    case Transfer(to, amount) =>
      || (e == InvalidReceiver && to == ZERO_ADDRESS)
      || (e == InsufficientBalance && amount > w.token.BalanceOf(tx.sender))
    case TransferFrom(from, to, amount) =>
      || (e == InsufficientAllowance && amount > w.token.Allowance(from, tx.sender))
      || (e in {InvalidApprover, InvalidSender} && from == ZERO_ADDRESS)
      || (e == InvalidReceiver && to == ZERO_ADDRESS)
      || (e == InsufficientBalance && amount > w.token.BalanceOf(from))
    case Approve(spender, _) => e == InvalidSpender && spender == ZERO_ADDRESS
    case Mint(_, _) => e == UnauthorizedAccount
    case ChangeTokenRole(op) => RoleRefused(w.token.roles, tx.sender, op, e)
  }

  // ---- Vault --------------------------------------------------------------------

  /** `borrow` and the snapshot it reads. */
  predicate BorrowRefused(w: World, tx: Tx, amount: uint256, e: Error) {
    var b := tx.sender;
    || (e == ZeroAmount && amount == 0)
    || (e == BorrowingPaused && w.vault.borrowingPaused)
    || (e == CreditLineNotOpen && b !in w.vault.positions)
    || (e == InsufficientBalance && amount > w.token.BalanceOf(w.at.vault))
    || (b in w.vault.positions
        && var (id, debt) := (w.vault.positions[b].reserveAccountId, w.vault.positions[b].principalWad);
        id in w.core.accounts
        && var (a, c) := (w.core.accounts[id], w.risk.config);
        var limit := CreditLimit(c, a.balanceDrops, tx.env.priceWad);
        match e
        case Panic => !Answers(c, a.balanceDrops, debt, tx.env.priceWad) || debt + amount > MAX_UINT256
        case AccountFrozen => a.status != Core.Active
        case StalePrice => !Fresh(tx.env.priceTimestamp, c.priceTtlSeconds, tx.env.now)
        case StaleReserve => !Fresh(a.lastAttestedAt, c.reserveTtlSeconds, tx.env.now)
        case CreditNotHealthy => debt * c.warningHealthBps > limit * 10_000
        case CreditLimitExceeded => debt + amount > limit
        case _ => false)
  }

  ghost predicate RepayRefused(w: World, tx: Tx, amount: uint256, e: Error) {
    var b := tx.sender;
    match e
    case ZeroAmount => amount == 0
    case CreditLineNotOpen => b !in w.vault.positions
    case ExcessRepayment => amount > w.vault.Principal(b)
    case RepaymentReserved => amount + OpenTotal(w.router.intents, b) > w.vault.Principal(b)
    case InsufficientRfUsdAllowance => amount > w.token.Allowance(b, w.at.vault)
    case InsufficientRfUsdBalance => amount > w.token.BalanceOf(b)
    case _ => false
  }

  ghost predicate VaultRefuses(w: World, tx: Tx, c: VaultCall, e: Error) {
    var b := tx.sender;
    var unauthorized := e == UnauthorizedAccount && b !in w.vault.roles.operators;
    match c
    case SetToken(t) => unauthorized || (if t == ZERO_ADDRESS then e == ZeroAddress else e == TokenAlreadySet)
    case SetBorrowingPaused(_) => unauthorized
    case SetRepaymentRouter(r) =>
      unauthorized || (if r == ZERO_ADDRESS then e == ZeroAddress else e == RepaymentRouterAlreadySet)
    case OpenCreditLine(id) =>
      || (e == CreditLineAlreadyOpen && b in w.vault.positions)
      || (e == AccountNotFound && id !in w.core.accounts)
      || (e == UnauthorizedReserveAccount && id in w.core.accounts && w.core.accounts[id].borrower != b)
    case Borrow(amount) => BorrowRefused(w, tx, amount, e)
    case Repay(amount) => RepayRefused(w, tx, amount, e)
    case SyncRisk => if b !in w.vault.positions then e == CreditLineNotOpen else e == Panic && !SyncFits(w, tx)
    case SettleXrpRepayment(_, _) => e == UnauthorizedRepaymentRouter
    case ReserveXrpRepayment(_, _) => e == UnauthorizedRepaymentRouter
    case ReleaseXrpRepayment(_, _) => e == UnauthorizedRepaymentRouter
    case ChangeVaultRole(op) => RoleRefused(w.vault.roles, b, op, e)
  }

  predicate Requested(w: World, tx: Tx, amount: uint256) {
    amount > 0 && !w.vault.borrowingPaused && tx.sender in w.vault.positions
  }

  /** The engine answers, and its answer is not HEALTHY. */
  lemma UnsoundBorrow(w: World, b: Address, env: Env, e: Error)
    requires b in w.vault.positions && w.vault.positions[b].reserveAccountId in w.core.accounts
    requires var s := w.risk.GetSnapshot(w.core.accounts, env, w.vault.positions[b].reserveAccountId,
                                         w.vault.positions[b].principalWad);
      s.Ok? && RequireBorrowable(s.value.status) == Revert(e)
    ensures var (a, c) := (w.core.accounts[w.vault.positions[b].reserveAccountId], w.risk.config);
      || (e == AccountFrozen && a.status != Core.Active)
      || (e == StalePrice && !Fresh(env.priceTimestamp, c.priceTtlSeconds, env.now))
      || (e == StaleReserve && !Fresh(a.lastAttestedAt, c.reserveTtlSeconds, env.now))
      || (e == CreditNotHealthy && w.vault.positions[b].principalWad * c.warningHealthBps
                                   > CreditLimit(c, a.balanceDrops, env.priceWad) * 10_000)
  {
    var (a, debt) := (w.core.accounts[w.vault.positions[b].reserveAccountId], w.vault.positions[b].principalWad);
    StatusByThresholds(w.risk.config, a, debt, env.priceWad, env.priceTimestamp, env.now);
    SnapshotFields(w.risk.config, a, debt, env.priceWad, env.priceTimestamp, env.now);
  }

  /** The engine's answer is HEALTHY, or there is none. */
  lemma UnfitBorrow(w: World, tx: Tx, amount: uint256, e: Error)
    requires Requested(w, tx, amount) && w.vault.token != ZERO_ADDRESS && w.at.vault != ZERO_ADDRESS
    requires tx.sender != ZERO_ADDRESS && w.vault.positions[tx.sender].reserveAccountId in w.core.accounts
    requires var s := w.risk.GetSnapshot(w.core.accounts, tx.env, w.vault.positions[tx.sender].reserveAccountId,
                                         w.vault.positions[tx.sender].principalWad);
      s.Ok? ==> s.value.status.Healthy?
    requires StepVault(w, tx, Borrow(amount)) == Revert(e)
    ensures BorrowRefused(w, tx, amount, e)
  {
    var (a, debt) := (w.core.accounts[w.vault.positions[tx.sender].reserveAccountId],
                      w.vault.positions[tx.sender].principalWad);
    var (p, t, now) := (tx.env.priceWad, tx.env.priceTimestamp, tx.env.now);
    SnapshotAnswers(w.risk.config, a, debt, p, t, now);
    if Risk.Snapshot(w.risk.config, a, debt, p, t, now).Ok? { SnapshotFields(w.risk.config, a, debt, p, t, now); }
  }

  lemma UnrequestedBorrow(w: World, tx: Tx, amount: uint256, e: Error)
    requires !Requested(w, tx, amount) && w.vault.token != ZERO_ADDRESS
    requires StepVault(w, tx, Borrow(amount)) == Revert(e)
    ensures BorrowRefused(w, tx, amount, e)
  {}

  /** If the engine's answer is not HEALTHY, that is what `borrow` returns. */
  lemma StatusDecides(w: World, tx: Tx, amount: uint256, e: Error)
    requires Requested(w, tx, amount) && w.vault.token != ZERO_ADDRESS
    requires StepVault(w, tx, Borrow(amount)) == Revert(e)
    ensures var s := w.risk.GetSnapshot(w.core.accounts, tx.env, w.vault.positions[tx.sender].reserveAccountId,
                                        w.vault.positions[tx.sender].principalWad);
      s.Ok? && !s.value.status.Healthy? ==> RequireBorrowable(s.value.status) == Revert(e)
  {}

  lemma BorrowExplains(w: World, tx: Tx, amount: uint256, e: Error)
    requires Wired(w) && tx.External(w.at) && CreditLines.LineOwned(w, tx.sender)
    requires StepVault(w, tx, Borrow(amount)) == Revert(e)
    ensures BorrowRefused(w, tx, amount, e)
  {
    assert w.at.vault in w.at.All() && w.at.token in w.at.All();
    if !Requested(w, tx, amount) {
      UnrequestedBorrow(w, tx, amount, e);
    } else {
      var p := w.vault.positions[tx.sender];
      var s := w.risk.GetSnapshot(w.core.accounts, tx.env, p.reserveAccountId, p.principalWad);
      StatusDecides(w, tx, amount, e);
      if s.Ok? && !s.value.status.Healthy? {
        UnsoundBorrow(w, tx.sender, tx.env, e);
      } else {
        UnfitBorrow(w, tx, amount, e);
      }
    }
  }

  lemma SyncExplains(w: World, tx: Tx, e: Error)
    requires CreditLines.LineOwned(w, tx.sender) && StepVault(w, tx, SyncRisk) == Revert(e)
    ensures VaultRefuses(w, tx, SyncRisk, e)
  {
    SyncAcceptedExactly(w, tx);
    var b := tx.sender;
    if b in w.vault.positions {
      SnapshotAnswers(w.risk.config, w.core.accounts[w.vault.positions[b].reserveAccountId],
                      w.vault.positions[b].principalWad, tx.env.priceWad, tx.env.priceTimestamp, tx.env.now);
    }
  }

  lemma RepayExplains(w: World, tx: Tx, amount: uint256, e: Error)
    requires Wired(w) && tx.External(w.at) && ReservedFor(w.vault, w.router.intents, tx.sender)
    requires StepVault(w, tx, Repay(amount)) == Revert(e)
    ensures RepayRefused(w, tx, amount, e)
  {
    assert w.at.vault in w.at.All() && w.at.token in w.at.All();
  }

  lemma VaultExplains(w: World, tx: Tx, c: VaultCall, e: Error)
    requires Wired(w) && tx.External(w.at) && ReservedFor(w.vault, w.router.intents, tx.sender)
    requires CreditLines.LineOwned(w, tx.sender) && StepVault(w, tx, c) == Revert(e)
    ensures VaultRefuses(w, tx, c, e)
  {
    assert w.at.token in w.at.All() && w.at.repaymentRouter in w.at.All();
    match c
    case Borrow(amount) => BorrowExplains(w, tx, amount, e);
    case Repay(amount) => RepayExplains(w, tx, amount, e);
    case SyncRisk => SyncExplains(w, tx, e);
    case _ => {}
  }

  // ---- Router -------------------------------------------------------------------

  ghost predicate CreationRefused(w: World, tx: Tx, account: Bytes32, wad: uint256, memo: Bytes32, expiresAt: uint64,
                                  e: Error)
  {
    var b := tx.sender;
    match e
    case ZeroValue => wad == 0 || memo == ZERO_BYTES32
    case IntentExpired => expiresAt <= tx.env.now
    case CreditLineNotOpen => b !in w.vault.positions
    case CreditLineMismatch => b in w.vault.positions && w.vault.positions[b].reserveAccountId != account
    case RepaymentExceedsPrincipal => wad > w.vault.Principal(b)
    case PriceStale =>
      tx.env.priceTimestamp > tx.env.now || tx.env.priceTimestamp + w.router.priceTtlSeconds < tx.env.now
    case Panic =>
      || tx.env.priceWad == 0 || wad * 1_000_000 > MAX_UINT256 * tx.env.priceWad
      || Lookup(w.router.nextNonce, b) == MAX_UINT256
    case RepaymentReserved => OpenTotal(w.router.intents, b) + wad > w.vault.Principal(b)
    case _ => false
  }

  predicate SettlementRefused(w: World, tx: Tx, k: Bytes32, p: Payment, e: Error) {
    if k !in w.router.intents then e == IntentNotFound
    else
      var i := w.router.intents[k];
      match e
      case IntentNotOpen => i.status != Router.Open
      case ProofOwnerMismatch => tx.sender != i.borrower || p.proofOwner != i.borrower
      case InvalidFdcProof => !tx.env.proofValid
      case UnsupportedProofSource => p.sourceId != TEST_XRP
      case InvalidPaymentStatus => p.status != 0
      case IntentExpired => p.blockTimestamp > i.expiresAt
      case InvalidCollectionAddress => p.receivingAddressHash != w.router.collectionAddressHash
      case MemoMismatch => MemoHash(p.firstMemoData) != i.memoHash
      case PaymentAmountMismatch => p.receivedAmount != i.expectedAmountDrops
      case ProofAlreadyConsumed => p.Id() in w.registry.consumed
      case UnauthorizedAccount => w.at.repaymentRouter !in w.registry.roles.operators
      case _ => false
  }

  ghost predicate RouterRefuses(w: World, tx: Tx, c: RouterCall, e: Error) {
    match c
    case CreateRepaymentIntent(account, wad, memo, expiresAt) =>
      CreationRefused(w, tx, account, wad, memo, expiresAt, e)
    case SettleRepaymentWithProof(k, p) => SettlementRefused(w, tx, k, p, e)
    case CancelRepaymentIntent(k) =>
      if k !in w.router.intents then e == IntentNotFound
      else || (e == ProofOwnerMismatch && tx.sender != w.router.intents[k].borrower)
           || (e == IntentNotOpen && w.router.intents[k].status != Router.Open)
    case ExpireRepaymentIntent(k) =>
      if k !in w.router.intents then e == IntentNotFound
      else || (e == IntentExpired && tx.env.now <= w.router.intents[k].expiresAt)
           || (e == IntentNotOpen && w.router.intents[k].status != Router.Open)
  }

  lemma CreationExplains(w: World, tx: Tx, account: Bytes32, wad: uint256, memo: Bytes32, expiresAt: uint64, e: Error)
    requires Wired(w) && ReservedFor(w.vault, w.router.intents, tx.sender)
    requires StepRouter(w, tx, CreateRepaymentIntent(account, wad, memo, expiresAt)) == Revert(e)
    ensures CreationRefused(w, tx, account, wad, memo, expiresAt, e)
  {
    if tx.env.priceWad > 0 { CeilIff(wad * 1_000_000, tx.env.priceWad, MAX_UINT256); }
    if Askable(w, tx, account, wad, memo, expiresAt) {
      Unreservable(w, tx, account, wad, memo, expiresAt, e);
    } else {
      Unaskable(w, tx, account, wad, memo, expiresAt, e);
    }
  }

  /** Arguments and line are in order. */
  predicate Askable(w: World, tx: Tx, account: Bytes32, wad: uint256, memo: Bytes32, expiresAt: uint64) {
    && wad > 0 && memo != ZERO_BYTES32 && tx.env.now < expiresAt && tx.sender in w.vault.positions
    && w.vault.positions[tx.sender].reserveAccountId == account && wad <= w.vault.Principal(tx.sender)
  }

  lemma Unaskable(w: World, tx: Tx, account: Bytes32, wad: uint256, memo: Bytes32, expiresAt: uint64, e: Error)
    requires !Askable(w, tx, account, wad, memo, expiresAt)
    requires StepRouter(w, tx, CreateRepaymentIntent(account, wad, memo, expiresAt)) == Revert(e)
    ensures CreationRefused(w, tx, account, wad, memo, expiresAt, e)
  {}

  lemma Unreservable(w: World, tx: Tx, account: Bytes32, wad: uint256, memo: Bytes32, expiresAt: uint64, e: Error)
    requires Askable(w, tx, account, wad, memo, expiresAt) && w.vault.repaymentRouter == w.at.repaymentRouter
    requires ReservedFor(w.vault, w.router.intents, tx.sender)
    requires tx.env.priceWad > 0 ==>
      (CeilDiv(wad * 1_000_000, tx.env.priceWad) <= MAX_UINT256 <==> wad * 1_000_000 <= MAX_UINT256 * tx.env.priceWad)
    requires StepRouter(w, tx, CreateRepaymentIntent(account, wad, memo, expiresAt)) == Revert(e)
    ensures CreationRefused(w, tx, account, wad, memo, expiresAt, e)
  {}

  /** Nothing the vault is asked when an OPEN intent closes is refused, so only the router's own checks show. */
  lemma SettlementExplains(w: World, tx: Tx, k: Bytes32, p: Payment, e: Error)
    requires Wired(w) && IntentsFresh(w) && Reserved(w) && Lifecycle.QuotesHeld(w.router)
    requires StepRouter(w, tx, SettleRepaymentWithProof(k, p)) == Revert(e)
    ensures SettlementRefused(w, tx, k, p, e)
  {
    if k in w.router.intents && w.router.intents[k].status == Router.Open {
      QuotePositive(w, k);
      assert ReservedFor(w.vault, w.router.intents, w.router.intents[k].borrower);
      ClosingNeverReverts(w, k, tx.env.now);
      OpenSettlementExplains(w, tx, k, p, e);
    }
  }

  lemma OpenSettlementExplains(w: World, tx: Tx, k: Bytes32, p: Payment, e: Error)
    requires k in w.router.intents && w.router.intents[k].expectedAmountDrops > 0
    requires w.vault.SettleXrp(w.at.repaymentRouter, tx.env.now, w.router.intents[k].borrower,
                               w.router.intents[k].repaymentWad).Ok?
    requires StepRouter(w, tx, SettleRepaymentWithProof(k, p)) == Revert(e)
    ensures SettlementRefused(w, tx, k, p, e)
  {
    if !ProofFits(w, tx, k, p) { UnfitProof(w, tx, k, p, e); }
    else if !TermsMet(w, k, p) { TermsUnmet(w, tx, k, p, e); }
    else { UnspendableSettlement(w, tx, k, p, e); }
  }

  /** Intent, sender, verifier and source are in order. */
  predicate ProofFits(w: World, tx: Tx, k: Bytes32, p: Payment) {
    && k in w.router.intents
    && var i := w.router.intents[k];
    && i.status == Router.Open && tx.sender == i.borrower == p.proofOwner && tx.env.proofValid
    && p.sourceId == TEST_XRP && p.status == 0
  }

  lemma UnfitProof(w: World, tx: Tx, k: Bytes32, p: Payment, e: Error)
    requires !ProofFits(w, tx, k, p) && StepRouter(w, tx, SettleRepaymentWithProof(k, p)) == Revert(e)
    ensures SettlementRefused(w, tx, k, p, e)
  {}

  predicate TermsMet(w: World, k: Bytes32, p: Payment) {
    && k in w.router.intents
    && var i := w.router.intents[k];
    && p.blockTimestamp <= i.expiresAt && p.receivingAddressHash == w.router.collectionAddressHash
    && MemoHash(p.firstMemoData) == i.memoHash && p.receivedAmount == i.expectedAmountDrops
  }

  lemma TermsUnmet(w: World, tx: Tx, k: Bytes32, p: Payment, e: Error)
    requires ProofFits(w, tx, k, p) && !TermsMet(w, k, p) && w.router.intents[k].expectedAmountDrops > 0
    requires StepRouter(w, tx, SettleRepaymentWithProof(k, p)) == Revert(e)
    ensures SettlementRefused(w, tx, k, p, e)
  {}

  /** Only the registry can still refuse. */
  lemma UnspendableSettlement(w: World, tx: Tx, k: Bytes32, p: Payment, e: Error)
    requires ProofFits(w, tx, k, p) && TermsMet(w, k, p) && w.router.intents[k].expectedAmountDrops > 0
    requires w.vault.SettleXrp(w.at.repaymentRouter, tx.env.now, w.router.intents[k].borrower,
                               w.router.intents[k].repaymentWad).Ok?
    requires StepRouter(w, tx, SettleRepaymentWithProof(k, p)) == Revert(e)
    ensures w.registry.Consume(w.at.repaymentRouter, p.Id()) == Revert(e)
  {}

  lemma RouterExplains(w: World, tx: Tx, c: RouterCall, e: Error)
    requires Wired(w) && IntentsFresh(w) && Reserved(w) && Lifecycle.QuotesHeld(w.router)
    requires StepRouter(w, tx, c) == Revert(e)
    ensures RouterRefuses(w, tx, c, e)
  {
    match c
    case CreateRepaymentIntent(account, wad, memo, expiresAt) =>
      assert ReservedFor(w.vault, w.router.intents, tx.sender);
      CreationExplains(w, tx, account, wad, memo, expiresAt, e);
    case SettleRepaymentWithProof(k, p) => SettlementExplains(w, tx, k, p, e);
    case CancelRepaymentIntent(k) => if k in w.router.intents { ClosingGranted(w, k, tx.env.now); }
    case ExpireRepaymentIntent(k) => if k in w.router.intents { ClosingGranted(w, k, tx.env.now); }
  }

  // ---- Every transaction --------------------------------------------------------

  ghost predicate Refuses(w: World, tx: Tx, e: Error) {
    match tx.call
    case ToCore(c) => CoreRefuses(w, tx, c, e)
    case ToRegistry(c) => RegistryRefuses(w, tx, c, e)
    case ToInvoices(c) => InvoicesRefuse(w, tx, c, e)
    case ToRisk(next) => RiskRefuses(w, tx, next, e)
    case ToVault(c) => VaultRefuses(w, tx, c, e)
    case ToToken(c) => TokenRefuses(w, tx, c, e)
    case ToRouter(c) => RouterRefuses(w, tx, c, e)
  }

  /** In a reachable state an error never blames a check that holds. */
  lemma ErrorsAreTrue(s: Setup, txs: seq<Tx>, w: World, tx: Tx, e: Error)
    requires Reaches(s, txs, w) && tx.External(w.at) && Step(w, tx) == Revert(e)
    ensures Refuses(w, tx, e)
  {
    ReachableGood(s, txs, w);
    RefusedForCause(w, tx, e);
  }

  lemma RefusedForCause(w: World, tx: Tx, e: Error)
    requires Good(w) && tx.External(w.at) && Step(w, tx) == Revert(e)
    ensures Refuses(w, tx, e)
  {
    match tx.call
    case ToVault(c) =>
      assert ReservedFor(w.vault, w.router.intents, tx.sender) && CreditLines.LineOwned(w, tx.sender);
      VaultExplains(w, tx, c, e);
    case ToRouter(c) => RouterExplains(w, tx, c, e);
    case _ => OthersExplain(w, tx, e);
  }

  lemma OthersExplain(w: World, tx: Tx, e: Error)
    requires Wired(w) && Sealed(w.token, w.at.vault) && tx.External(w.at)
    requires !tx.call.ToVault? && !tx.call.ToRouter? && Step(w, tx) == Revert(e)
    ensures Refuses(w, tx, e)
  {
    assert w.at.core in w.at.All();
    match tx.call
    case ToCore(c) => CoreExplains(w, tx, c, e);
    case ToRegistry(c) => RegistryExplains(w, tx, c, e);
    case ToInvoices(c) => InvoicesExplain(w, tx, c, e);
    case ToToken(c) => TokenExplains(w, tx, c, e);
    case ToRisk(next) => {}
  }

  lemma RegistryExplains(w: World, tx: Tx, c: RegistryCall, e: Error)
    requires StepRegistry(w, tx, c) == Revert(e)
    ensures RegistryRefuses(w, tx, c, e)
  {}

  lemma InvoicesExplain(w: World, tx: Tx, c: InvoiceCall, e: Error)
    requires Wired(w) && tx.sender != w.at.core && StepInvoices(w, tx, c) == Revert(e)
    ensures InvoicesRefuse(w, tx, c, e)
  {}

  lemma TokenExplains(w: World, tx: Tx, c: TokenCall, e: Error)
    requires Sealed(w.token, w.at.vault) && tx.External(w.at) && StepToken(w, tx, c) == Revert(e)
    ensures TokenRefuses(w, tx, c, e)
  {}
}
