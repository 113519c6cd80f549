/** Which transactions a reachable state accepts: all of them, call by call, in terms of what a caller can see. */
module Acceptance {
  import opened Evm
  import opened AccessControl
  import opened MockUsd
  import opened CreditVault
  import opened Protocol
  import opened Wiring
  import opened Reservations
  import opened CreditLines
  import opened CreditMath
  import opened Rounding
  import opened Lifecycle
  import opened Safety
  import opened Authority
  import Core = ReserveFlowCore
  import Risk = RiskEngine
  import Router = XrpRepaymentRouter
  import Inv = InvoiceRegistry

  /** Seen at most `ttl` seconds ago, not in the future, and at all. */
  predicate Fresh(timestamp: nat, ttl: nat, now: nat) { 0 < timestamp <= now <= timestamp + ttl }

  predicate RoleChangeAllowed(roles: Roles, sender: Address, op: RoleOp) {
    match op
    case GrantRole(_, _) => sender in roles.admins
    case RevokeRole(_, _) => sender in roles.admins
    case RenounceRole(_, account) => account == sender
  }

  predicate CoreAccepts(w: World, tx: Tx, c: CoreCall) {
    match c
    case SetBorrowerApproval(b, _) => tx.sender in w.core.roles.operators && b != ZERO_ADDRESS
    case SetProofRegistry(_) => false
    case SetInvoiceRegistry(_) => false
    case RegisterReserveAccount(h) =>
      && tx.sender in w.core.approvedBorrowers && h != ZERO_BYTES32
      && AccountId(tx.sender, TEST_XRP, h) !in w.core.accounts
    case ApproveReserveAccount(id) =>
      tx.sender in w.core.roles.operators && id in w.core.accounts && w.core.accounts[id].status == Core.PendingApproval
    case SetReserveAccountFrozen(id, frozen) =>
      tx.sender in w.core.roles.operators && id in w.core.accounts
      && w.core.accounts[id].status == (if frozen then Core.Active else Core.Frozen)
    case SubmitXrpPaymentProof(id, p) => PaymentFits(w, tx, id, p)
    case SubmitInvoicePaymentProof(id, k, p) => InvoicePaymentFits(w, tx, id, k, p)
    case ChangeCoreRole(op) => RoleChangeAllowed(w.core.roles, tx.sender, op)
  }

  predicate RegistryAccepts(w: World, tx: Tx, c: RegistryCall) {
    match c
    case SetProofConsumer(a, _) => tx.sender in w.registry.roles.admins && a != ZERO_ADDRESS
    case Consume(id) => tx.sender in w.registry.roles.operators && id !in w.registry.consumed
    case ChangeRegistryRole(op) => RoleChangeAllowed(w.registry.roles, tx.sender, op)
  }

  predicate InvoicesAccept(w: World, tx: Tx, c: InvoiceCall) {
    match c
    case CreateInvoice(account, payer, minimum, due, memo) =>
      account != ZERO_BYTES32 && payer != ZERO_BYTES32 && memo != ZERO_BYTES32 && minimum > 0 && tx.env.now < due
      && Lookup(w.invoices.nextNonce, tx.sender) < MAX_UINT256
    case SettleFromCore(_, _, _, _, _, _) => false
    case CancelInvoice(k) =>
      && k in w.invoices.invoices && w.invoices.invoices[k].status == Inv.Open
      && w.invoices.invoices[k].borrower == tx.sender
    case ExpireInvoice(k) =>
      k in w.invoices.invoices && w.invoices.invoices[k].status == Inv.Open && w.invoices.invoices[k].dueAt < tx.env.now
  }

  predicate RiskAccepts(w: World, tx: Tx, next: Risk.RiskConfig) {
    && tx.sender == w.risk.riskAdmin && w.risk.version < 0xFFFF_FFFF_FFFF_FFFF
    && next.haircutBps <= 10_000 && next.advanceRateBps <= 10_000
    && next.priceTtlSeconds > 0 && next.reserveTtlSeconds > 0
    && 0 < next.marginCallHealthBps <= next.warningHealthBps
  }

  /** A sound, fresh, active account, within its limit and within what the vault holds. */
  predicate BorrowFits(w: World, tx: Tx, amount: uint256) {
    var b := tx.sender;
    && amount > 0 && !w.vault.borrowingPaused && b in w.vault.positions
    && var (id, debt) := (w.vault.positions[b].reserveAccountId, w.vault.positions[b].principalWad);
    && id in w.core.accounts
    && var (a, c) := (w.core.accounts[id], w.risk.config);
    var limit := CreditLimit(c, a.balanceDrops, tx.env.priceWad);
    && Answers(c, a.balanceDrops, debt, tx.env.priceWad) && a.status == Core.Active
    && Fresh(tx.env.priceTimestamp, c.priceTtlSeconds, tx.env.now)
    && Fresh(a.lastAttestedAt, c.reserveTtlSeconds, tx.env.now)
    && debt * c.warningHealthBps <= limit * 10_000
    && debt + amount <= limit && amount <= w.token.BalanceOf(w.at.vault)
  }

  predicate SyncFits(w: World, tx: Tx) {
    var b := tx.sender;
    && b in w.vault.positions && w.vault.positions[b].reserveAccountId in w.core.accounts
    && Answers(w.risk.config, w.core.accounts[w.vault.positions[b].reserveAccountId].balanceDrops,
               w.vault.positions[b].principalWad, tx.env.priceWad)
  }

  ghost predicate VaultAccepts(w: World, tx: Tx, c: VaultCall) {
    var b := tx.sender;
    match c
    case SetToken(_) => false
    case SetBorrowingPaused(_) => b in w.vault.roles.operators
    case SetRepaymentRouter(_) => false
    case OpenCreditLine(id) => b !in w.vault.positions && id in w.core.accounts && w.core.accounts[id].borrower == b
    case Borrow(amount) => BorrowFits(w, tx, amount)
    case Repay(amount) =>
      0 < amount && amount + OpenTotal(w.router.intents, b) <= w.vault.Principal(b)
      && amount <= w.token.Allowance(b, w.at.vault) && amount <= w.token.BalanceOf(b)
    case SyncRisk => SyncFits(w, tx)
    case SettleXrpRepayment(_, _) => false
    case ReserveXrpRepayment(_, _) => false
    case ReleaseXrpRepayment(_, _) => false
    case ChangeVaultRole(op) => RoleChangeAllowed(w.vault.roles, b, op)
  }

  predicate TokenAccepts(w: World, tx: Tx, c: TokenCall) {
    match c
    case Transfer(to, amount) => to != ZERO_ADDRESS && amount <= w.token.BalanceOf(tx.sender)
    case TransferFrom(from, to, amount) =>
      from != ZERO_ADDRESS && to != ZERO_ADDRESS && amount <= w.token.Allowance(from, tx.sender)
      && amount <= w.token.BalanceOf(from)
    case Approve(spender, _) => spender != ZERO_ADDRESS
    case Mint(_, _) => false
    case ChangeTokenRole(op) => op.RenounceRole? && op.account == tx.sender
  }

  /** The amount is free to be reserved, the price is fresh, and the quote fits a word. */
  ghost predicate CreationFits(w: World, tx: Tx, account: Bytes32, wad: uint256, memo: Bytes32, expiresAt: uint64) {
    var b := tx.sender;
    && wad > 0 && memo != ZERO_BYTES32 && tx.env.now < expiresAt
    && b in w.vault.positions && w.vault.positions[b].reserveAccountId == account
    && OpenTotal(w.router.intents, b) + wad <= w.vault.Principal(b)
    && tx.env.priceTimestamp <= tx.env.now <= tx.env.priceTimestamp + w.router.priceTtlSeconds
    && tx.env.priceWad > 0 && wad * 1_000_000 <= MAX_UINT256 * tx.env.priceWad
    && Lookup(w.router.nextNonce, b) < MAX_UINT256
  }

  ghost predicate RouterAccepts(w: World, tx: Tx, c: RouterCall) {
    match c
    case CreateRepaymentIntent(account, wad, memo, expiresAt) => CreationFits(w, tx, account, wad, memo, expiresAt)
    case SettleRepaymentWithProof(k, p) => SettlementFits(w, tx, k, p)
    case CancelRepaymentIntent(k) =>
      k in w.router.intents && w.router.intents[k].status == Router.Open && w.router.intents[k].borrower == tx.sender
    case ExpireRepaymentIntent(k) =>
      k in w.router.intents && w.router.intents[k].status == Router.Open && w.router.intents[k].expiresAt < tx.env.now
  }

  ghost predicate Accepts(w: World, tx: Tx) {
    match tx.call
    case ToCore(c) => CoreAccepts(w, tx, c)
    case ToRegistry(c) => RegistryAccepts(w, tx, c)
    case ToInvoices(c) => InvoicesAccept(w, tx, c)
    case ToRisk(next) => RiskAccepts(w, tx, next)
    case ToVault(c) => VaultAccepts(w, tx, c)
    case ToToken(c) => TokenAccepts(w, tx, c)
    case ToRouter(c) => RouterAccepts(w, tx, c)
  }

  // ---- Deployment ---------------------------------------------------------------

  /** Deployment succeeds exactly under these checks, and leaves this behind. */
  lemma DeploymentExactly(s: Setup)
    ensures Genesis(s).Ok? <==>
      && s.collection != ZERO_BYTES32 && ZERO_ADDRESS !in {s.approvedBorrower, s.riskAdmin, s.verifier, s.priceFeed}
      && s.chainId == 114 && s.deployer == s.riskAdmin
      && s.config.haircutBps <= 10_000 && s.config.advanceRateBps <= 10_000
      && s.config.priceTtlSeconds > 0 && s.config.reserveTtlSeconds > 0
      && 0 < s.config.marginCallHealthBps <= s.config.warningHealthBps
    ensures Genesis(s).Ok? ==> var w := Genesis(s).value;
      && w.core.roles == w.vault.roles == Roles({s.riskAdmin}, {s.riskAdmin}) && w.token.roles == Roles({}, {})
      && w.registry.roles == Roles({s.riskAdmin}, {w.at.core, w.at.repaymentRouter})
      && w.core.approvedBorrowers == {s.approvedBorrower} && w.risk.riskAdmin == s.riskAdmin
      && w.risk.config == s.config && w.router.priceTtlSeconds == s.config.priceTtlSeconds
      && w.router.collectionAddressHash == s.collection && !w.vault.borrowingPaused
      && w.token.totalSupply == w.token.BalanceOf(w.at.vault) == 1_000_000_000_000_000_000_000_000
      && w.core.accounts == map[] && w.invoices.invoices == map[] && w.router.intents == map[]
      && w.vault.positions == map[] && w.registry.consumed == {}
  {}

  // ---- Call by call -------------------------------------------------------------

  lemma CoreExactly(w: World, tx: Tx, c: CoreCall)
    requires Good(w)
    ensures StepCore(w, tx, c).Ok? <==> CoreAccepts(w, tx, c)
  {
    assert w.at.proofRegistry in w.at.All() && w.at.invoiceRegistry in w.at.All();
    match c
    case SubmitXrpPaymentProof(id, p) => PaymentAcceptedExactly(w, tx, id, p);
    case SubmitInvoicePaymentProof(id, k, p) => InvoicePaymentAcceptedExactly(w, tx, id, k, p);
    case _ => {}
  }

  lemma RegistryExactly(w: World, tx: Tx, c: RegistryCall)
    ensures StepRegistry(w, tx, c).Ok? <==> RegistryAccepts(w, tx, c)
  {}

  lemma InvoicesExactly(w: World, tx: Tx, c: InvoiceCall)
    requires Wired(w) && tx.sender != w.at.core
    ensures StepInvoices(w, tx, c).Ok? <==> InvoicesAccept(w, tx, c)
  {}

  /** `borrow` reads the engine, whose answer is HEALTHY exactly under the inequalities of `BorrowFits`. */
  lemma BorrowAcceptedExactly(w: World, tx: Tx, amount: uint256)
    requires Wired(w) && tx.External(w.at)
    ensures StepVault(w, tx, Borrow(amount)).Ok? <==> BorrowFits(w, tx, amount)
  {
    assert w.at.vault in w.at.All() && w.at.token in w.at.All();
    var b := tx.sender;
    if b in w.vault.positions && w.vault.positions[b].reserveAccountId in w.core.accounts {
      var (a, debt) := (w.core.accounts[w.vault.positions[b].reserveAccountId], w.vault.positions[b].principalWad);
      var (p, t, now) := (tx.env.priceWad, tx.env.priceTimestamp, tx.env.now);
      SnapshotAnswers(w.risk.config, a, debt, p, t, now);
      if Risk.Snapshot(w.risk.config, a, debt, p, t, now).Ok? {
        SnapshotFields(w.risk.config, a, debt, p, t, now);
        StatusByThresholds(w.risk.config, a, debt, p, t, now);
      }
    }
  }

  lemma SyncAcceptedExactly(w: World, tx: Tx)
    ensures StepVault(w, tx, SyncRisk).Ok? <==> SyncFits(w, tx)
  {
    var b := tx.sender;
    if b in w.vault.positions && w.vault.positions[b].reserveAccountId in w.core.accounts {
      SnapshotAnswers(w.risk.config, w.core.accounts[w.vault.positions[b].reserveAccountId],
                      w.vault.positions[b].principalWad, tx.env.priceWad, tx.env.priceTimestamp, tx.env.now);
    }
  }

  lemma RepayAcceptedExactly(w: World, tx: Tx, amount: uint256)
    requires Wired(w) && tx.External(w.at) && ReservedFor(w.vault, w.router.intents, tx.sender)
    ensures StepVault(w, tx, Repay(amount)).Ok? <==> VaultAccepts(w, tx, Repay(amount))
  {
    assert w.at.vault in w.at.All() && w.at.token in w.at.All();
  }

  lemma VaultExactly(w: World, tx: Tx, c: VaultCall)
    requires Good(w) && tx.External(w.at)
    ensures StepVault(w, tx, c).Ok? <==> VaultAccepts(w, tx, c)
  {
    assert w.at.token in w.at.All() && w.at.repaymentRouter in w.at.All();
    assert ReservedFor(w.vault, w.router.intents, tx.sender);
    match c
    case Borrow(amount) => BorrowAcceptedExactly(w, tx, amount);
    case Repay(amount) => RepayAcceptedExactly(w, tx, amount);
    case SyncRisk => SyncAcceptedExactly(w, tx);
    case _ => {}
  }

  lemma TokenExactly(w: World, tx: Tx, c: TokenCall)
    requires Sealed(w.token, w.at.vault) && tx.External(w.at)
    ensures StepToken(w, tx, c).Ok? <==> TokenAccepts(w, tx, c)
  {}

  /** The vault's reservation never decides against the router: what is free is the principal that no OPEN intent
      has reserved. */
  lemma CreationAcceptedExactly(w: World, tx: Tx, account: Bytes32, wad: uint256, memo: Bytes32, expiresAt: uint64)
    requires Wired(w) && ReservedFor(w.vault, w.router.intents, tx.sender)
    ensures StepRouter(w, tx, CreateRepaymentIntent(account, wad, memo, expiresAt)).Ok? <==>
      CreationFits(w, tx, account, wad, memo, expiresAt)
  {
    if tx.env.priceWad > 0 { CeilIff(wad * 1_000_000, tx.env.priceWad, MAX_UINT256); }
  }

  lemma RouterExactly(w: World, tx: Tx, c: RouterCall)
    requires Good(w)
    ensures StepRouter(w, tx, c).Ok? <==> RouterAccepts(w, tx, c)
  {
    match c
    case CreateRepaymentIntent(account, wad, memo, expiresAt) =>
      assert ReservedFor(w.vault, w.router.intents, tx.sender);
      CreationAcceptedExactly(w, tx, account, wad, memo, expiresAt);
    case SettleRepaymentWithProof(k, p) => SettlementAcceptedExactly(w, tx, k, p);
    case CancelRepaymentIntent(k) => if k in w.router.intents { ClosingGranted(w, k, tx.env.now); }
    case ExpireRepaymentIntent(k) => if k in w.router.intents { ClosingGranted(w, k, tx.env.now); }
  }

  lemma ClosingGranted(w: World, k: Bytes32, now: uint64)
    requires Wired(w) && IntentsFresh(w) && Reserved(w) && k in w.router.intents
    ensures var i := w.router.intents[k];
      i.status == Router.Open ==> w.vault.ReleaseXrp(w.at.repaymentRouter, i.borrower, i.repaymentWad).Ok?
  {
    if w.router.intents[k].status == Router.Open {
      assert ReservedFor(w.vault, w.router.intents, w.router.intents[k].borrower);
      ClosingNeverReverts(w, k, now);
    }
  }

  lemma OthersExactly(w: World, tx: Tx)
    requires Wired(w) && Sealed(w.token, w.at.vault) && tx.External(w.at)
    requires !tx.call.ToCore? && !tx.call.ToVault? && !tx.call.ToRouter?
    ensures Step(w, tx).Ok? <==> Accepts(w, tx)
  {
    assert w.at.core in w.at.All();
    match tx.call
    case ToRegistry(c) => RegistryExactly(w, tx, c);
    case ToInvoices(c) => InvoicesExactly(w, tx, c);
    case ToToken(c) => TokenExactly(w, tx, c);
    case ToRisk(next) => {}
  }

  lemma GoodAcceptsExactly(w: World, tx: Tx)
    requires Good(w) && tx.External(w.at)
    ensures Step(w, tx).Ok? <==> Accepts(w, tx)
  {
    match tx.call
    case ToCore(c) => CoreExactly(w, tx, c);
    case ToVault(c) => VaultExactly(w, tx, c);
    case ToRouter(c) => RouterExactly(w, tx, c);
    case _ => OthersExactly(w, tx);
  }

  /** Every transaction, at every reachable state: accepted if and only if `Accepts`. */
  lemma AcceptedExactly(s: Setup, txs: seq<Tx>, w: World, tx: Tx)
    requires Reaches(s, txs, w) && tx.External(w.at)
    ensures Step(w, tx).Ok? <==> Accepts(w, tx)
  {
    ReachableGood(s, txs, w);
    GoodAcceptsExactly(w, tx);
  }
}
