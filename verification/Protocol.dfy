/** The seven wired contracts as one state machine: a transaction is one external call,
    a reverted transaction changes nothing, and a run is any sequence of transactions. */
module Protocol {
  import opened Evm
  import opened AccessControl
  import opened MockUsd
  import opened CreditVault
  import opened ProofRegistry
  import opened InvoiceRegistry
  import Core = ReserveFlowCore
  import Risk = RiskEngine
  import Router = XrpRepaymentRouter

  datatype AddressBook = AddressBook(
    core: Address, proofRegistry: Address, invoiceRegistry: Address, riskEngine: Address, vault: Address,
    token: Address, repaymentRouter: Address)
  {
    function All(): seq<Address> { [core, proofRegistry, invoiceRegistry, riskEngine, vault, token, repaymentRouter] }
    predicate Distinct() {
      var all := All();
      && ZERO_ADDRESS !in all
      && forall i, j | 0 <= i < j < |all| :: all[i] != all[j]
    }
  }

  /** The addresses the seven CREATE operations hand out. */
  type Addresses = a: AddressBook | a.Distinct() witness AddressBook(1, 2, 3, 4, 5, 6, 7)

  datatype World = World(
    at: Addresses, core: Core.CoreState, registry: RegistryState, invoices: InvoiceState, risk: Risk.RiskState,
    vault: VaultState, token: TokenState, router: Router.RouterState)

  // ---- External calls -----------------------------------------------------------

  datatype CoreCall =
    | SetBorrowerApproval(borrower: Address, approved: bool)
    | SetProofRegistry(registry: Address)
    | SetInvoiceRegistry(registry: Address)
    | RegisterReserveAccount(externalAddressHash: Bytes32)
    | ApproveReserveAccount(id: Bytes32)
    | SetReserveAccountFrozen(id: Bytes32, frozen: bool)
    | SubmitXrpPaymentProof(id: Bytes32, p: Payment)
    | SubmitInvoicePaymentProof(id: Bytes32, invoiceId: Bytes32, p: Payment)
    | ChangeCoreRole(op: RoleOp)

  datatype RegistryCall =
    | SetProofConsumer(consumer: Address, allowed: bool)
    | Consume(proofId: Bytes32)
    | ChangeRegistryRole(op: RoleOp)

  datatype InvoiceCall =
    | CreateInvoice(accountId: Bytes32, payerAddressHash: Bytes32, minimumAmountDrops: uint256, dueAt: uint64,
                    memoHash: Bytes32)
    | SettleFromCore(invoiceId: Bytes32, proofId: Bytes32, payerAddressHash: Bytes32, amountDrops: uint256,
                     paidAt: uint64, memoHash: Bytes32)
    | CancelInvoice(invoiceId: Bytes32)
    | ExpireInvoice(invoiceId: Bytes32)

  datatype VaultCall =
    | SetToken(token: Address)
    | SetBorrowingPaused(paused: bool)
    | SetRepaymentRouter(router: Address)
    | OpenCreditLine(accountId: Bytes32)
    | Borrow(amountWad: uint256)
    | Repay(amountWad: uint256)
    | SyncRisk
    | SettleXrpRepayment(borrower: Address, amountWad: uint256)
    | ReserveXrpRepayment(borrower: Address, amountWad: uint256)
    | ReleaseXrpRepayment(borrower: Address, amountWad: uint256)
    | ChangeVaultRole(op: RoleOp)

  datatype TokenCall =
    | Transfer(to: Address, amount: uint256)
    | TransferFrom(from: Address, to: Address, amount: uint256)
    | Approve(spender: Address, amount: uint256)
    | Mint(recipient: Address, amount: uint256)
    | ChangeTokenRole(op: RoleOp)

  datatype RouterCall =
    | CreateRepaymentIntent(accountId: Bytes32, repaymentWad: uint256, memoHash: Bytes32, expiresAt: uint64)
    | SettleRepaymentWithProof(intentId: Bytes32, p: Payment)
    | CancelRepaymentIntent(intentId: Bytes32)
    | ExpireRepaymentIntent(intentId: Bytes32)

  datatype Call =
    | ToCore(core: CoreCall)
    | ToRegistry(registry: RegistryCall)
    | ToInvoices(invoices: InvoiceCall)
    | ToRisk(next: Risk.RiskConfig)
    | ToVault(vault: VaultCall)
    | ToToken(token: TokenCall)
    | ToRouter(router: RouterCall)

  datatype Tx = Tx(sender: Address, env: Env, call: Call) {
    /** A transaction is signed by an account that is none of the contracts. */
    predicate External(at: Addresses) { sender != ZERO_ADDRESS && sender !in at.All() }
  }

  // ---- One transaction ----------------------------------------------------------

  function StepCore(w: World, tx: Tx, c: CoreCall): Outcome<World> {
    match c
    case SetBorrowerApproval(b, ok) => var s :- w.core.SetBorrowerApproval(tx.sender, b, ok); Ok(w.(core := s))
    case SetProofRegistry(r) => var s :- w.core.SetProofRegistry(tx.sender, r); Ok(w.(core := s))
    case SetInvoiceRegistry(r) => var s :- w.core.SetInvoiceRegistry(tx.sender, r); Ok(w.(core := s))
    case RegisterReserveAccount(h) => var s :- w.core.Register(tx.sender, h); Ok(w.(core := s))
    case ApproveReserveAccount(id) => var s :- w.core.Approve(tx.sender, id); Ok(w.(core := s))
    case SetReserveAccountFrozen(id, f) => var s :- w.core.SetFrozen(tx.sender, id, f); Ok(w.(core := s))
    case SubmitXrpPaymentProof(id, p) =>
      var (s, r) :- w.core.SubmitPayment(w.registry, w.at.core, tx.sender, tx.env, id, p);
      Ok(w.(core := s, registry := r))
    case SubmitInvoicePaymentProof(id, invoiceId, p) =>
      var (s, r, i) :- w.core.SubmitInvoicePayment(w.registry, w.invoices, w.at.core, tx.sender, tx.env, id, invoiceId,
                                                   p);
      Ok(w.(core := s, registry := r, invoices := i))
    case ChangeCoreRole(op) => var s :- w.core.ChangeRole(tx.sender, op); Ok(w.(core := s))
  }

  function StepRegistry(w: World, tx: Tx, c: RegistryCall): Outcome<World> {
    var s :- match c {
      case SetProofConsumer(a, ok) => w.registry.SetProofConsumer(tx.sender, a, ok)
      case Consume(id) => w.registry.Consume(tx.sender, id)
      case ChangeRegistryRole(op) => w.registry.ChangeRole(tx.sender, op)
    };
    Ok(w.(registry := s))
  }

  function StepInvoices(w: World, tx: Tx, c: InvoiceCall): Outcome<World> {
    var s :- match c {
      case CreateInvoice(id, payer, min, due, memo) =>
        w.invoices.Create(tx.sender, tx.env.now, id, payer, min, due, memo)
      case SettleFromCore(id, proof, payer, amount, paid, memo) =>
        w.invoices.Settle(tx.sender, id, proof, payer, amount, paid, memo)
      case CancelInvoice(id) => w.invoices.Cancel(tx.sender, id)
      case ExpireInvoice(id) => w.invoices.Expire(tx.env.now, id)
    };
    Ok(w.(invoices := s))
  }

  function StepVault(w: World, tx: Tx, c: VaultCall): Outcome<World> {
    match c
    case SetToken(t) => var s :- w.vault.SetToken(tx.sender, t); Ok(w.(vault := s))
    case SetBorrowingPaused(p) => var s :- w.vault.SetBorrowingPaused(tx.sender, p); Ok(w.(vault := s))
    case SetRepaymentRouter(r) => var s :- w.vault.SetRepaymentRouter(tx.sender, r); Ok(w.(vault := s))
    case OpenCreditLine(id) =>
      var s :- w.vault.OpenCreditLine(w.core.accounts, tx.sender, tx.env.now, id);
      Ok(w.(vault := s))
    case Borrow(amount) =>
      var (s, t) :- w.vault.Borrow(w.token, w.risk, w.core.accounts, w.at.vault, tx.sender, tx.env, amount);
      Ok(w.(vault := s, token := t))
    case Repay(amount) =>
      var (s, t) :- w.vault.Repay(w.token, w.at.vault, tx.sender, tx.env.now, amount);
      Ok(w.(vault := s, token := t))
    case SyncRisk => var s :- w.vault.SyncRisk(w.risk, w.core.accounts, tx.sender, tx.env); Ok(w.(vault := s))
    case SettleXrpRepayment(b, amount) =>
      var s :- w.vault.SettleXrp(tx.sender, tx.env.now, b, amount);
      Ok(w.(vault := s))
    case ReserveXrpRepayment(b, amount) => var s :- w.vault.ReserveXrp(tx.sender, b, amount); Ok(w.(vault := s))
    case ReleaseXrpRepayment(b, amount) => var s :- w.vault.ReleaseXrp(tx.sender, b, amount); Ok(w.(vault := s))
    case ChangeVaultRole(op) => var s :- w.vault.ChangeRole(tx.sender, op); Ok(w.(vault := s))
  }

  function StepToken(w: World, tx: Tx, c: TokenCall): Outcome<World> {
    var s :- match c {
      case Transfer(to, amount) => w.token.Move(tx.sender, to, amount)
      case TransferFrom(from, to, amount) => w.token.TransferFrom(tx.sender, from, to, amount)
      case Approve(spender, amount) => w.token.Approve(tx.sender, spender, amount)
      case Mint(to, amount) => w.token.Mint(tx.sender, to, amount)
      case ChangeTokenRole(op) => w.token.ChangeRole(tx.sender, op)
    };
    Ok(w.(token := s))
  }

  function StepRouter(w: World, tx: Tx, c: RouterCall): Outcome<World> {
    match c
    case CreateRepaymentIntent(id, wad, memo, exp) =>
      var (s, v) :- w.router.Create(w.vault, w.at.repaymentRouter, tx.sender, tx.env, id, wad, memo, exp);
      Ok(w.(router := s, vault := v))
    case SettleRepaymentWithProof(id, p) =>
      var (s, v, r) :- w.router.Settle(w.vault, w.registry, w.at.repaymentRouter, tx.sender, tx.env, id, p);
      Ok(w.(router := s, vault := v, registry := r))
    case CancelRepaymentIntent(id) =>
      var (s, v) :- w.router.Cancel(w.vault, w.at.repaymentRouter, tx.sender, id);
      Ok(w.(router := s, vault := v))
    case ExpireRepaymentIntent(id) =>
      var (s, v) :- w.router.Expire(w.vault, w.at.repaymentRouter, tx.env.now, id);
      Ok(w.(router := s, vault := v))
  }

  function Step(w: World, tx: Tx): Outcome<World> {
    match tx.call
    case ToCore(c) => StepCore(w, tx, c)
    case ToRegistry(c) => StepRegistry(w, tx, c)
    case ToInvoices(c) => StepInvoices(w, tx, c)
    case ToRisk(next) => var s :- w.risk.SetConfig(tx.sender, next); Ok(w.(risk := s))
    case ToVault(c) => StepVault(w, tx, c)
    case ToToken(c) => StepToken(w, tx, c)
    case ToRouter(c) => StepRouter(w, tx, c)
  }

  function Next(w: World, tx: Tx): World {
    var s := Step(w, tx);
    if s.Ok? then s.value else w
  }

  // ---- Deployment and runs ------------------------------------------------------

  datatype Setup = Setup(
    deployer: Address, riskAdmin: Address, approvedBorrower: Address, config: Risk.RiskConfig, collection: Bytes32,
    chainId: nat, verifier: Address, priceFeed: Address, at: Addresses)
  {
    /** The checks `deployWithXrpRepayment` and the constructors make, in order. */
    function Checked(): Outcome<()> {
      var _ :- Require(collection != ZERO_BYTES32, InvalidApprovedBorrower);
      var _ :- Require(approvedBorrower != ZERO_ADDRESS, InvalidApprovedBorrower);
      var _ :- Require(chainId == COSTON2_CHAIN_ID, UnsupportedChain);
      var _ :- Require(riskAdmin != ZERO_ADDRESS, ZeroAddress);
      var _ :- Require(verifier != ZERO_ADDRESS, ZeroAddress);
      var _ :- Require(deployer == riskAdmin, UnauthorizedAccount);
      var _ :- Require(priceFeed != ZERO_ADDRESS, ZeroAddress);
      var _ :- Require(config.Valid(), InvalidRiskConfig);
      Ok(())
    }
  }

  /** The state `deployWithXrpRepayment` leaves behind. */
  function Genesis(s: Setup): Outcome<World> {
    var _ :- s.Checked();
    var admin := Roles({s.riskAdmin}, {s.riskAdmin});
    Ok(World(
      s.at,
      Core.CoreState(admin, s.at.proofRegistry, s.at.invoiceRegistry, {s.approvedBorrower}, map[], {}, []),
      RegistryState(Roles({s.riskAdmin}, {s.at.core, s.at.repaymentRouter}), {}, []),
      InvoiceState(s.at.core, map[], map[]),
      Risk.RiskState(s.riskAdmin, 2, s.config),
      VaultState(admin, s.at.token, s.at.repaymentRouter, false, map[], map[], []),
      Minted(s.at.vault),
      Router.RouterState(s.collection, s.config.priceTtlSeconds, map[], map[], map[], [])))
  }

  ghost predicate AllExternal(at: Addresses, txs: seq<Tx>) {
    forall tx | tx in txs :: tx.External(at)
  }

  function Run(w: World, txs: seq<Tx>): World {
    if txs == [] then w else Next(Run(w, txs[..|txs| - 1]), txs[|txs| - 1])
  }

  /** `w` is the state after some run of external transactions from some deployment. */
  ghost predicate Reaches(s: Setup, txs: seq<Tx>, w: World) {
    && Genesis(s).Ok?
    && AllExternal(s.at, txs)
    && w == Run(Genesis(s).value, txs)
  }
}
