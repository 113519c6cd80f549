/** DeploymentPlan.sol, and the deployed objects as one machine: every transaction on the
    contracts, with the revert semantics of the EVM, is a step of the protocol. */
module DeploymentPlan {
  import opened Evm
  import opened MockUsd
  import opened CreditVault
  import opened ProofRegistry
  import opened InvoiceRegistry
  import opened Protocol
  import Core = ReserveFlowCore
  import Risk = RiskEngine
  import Router = XrpRepaymentRouter
  import opened AccessControl

  class Deployment {
    const core: Core.ReserveFlowCore
    const riskEngine: Risk.RiskEngine
    const vault: CreditVault
    const token: MockUSD
    const proofRegistry: XrpProofRegistry
    const invoiceRegistry: InvoiceRegistryContract
    const repaymentRouter: Router.XrpRepaymentRouter

    constructor (core: Core.ReserveFlowCore, riskEngine: Risk.RiskEngine, vault: CreditVault, token: MockUSD,
                 proofRegistry: XrpProofRegistry, invoiceRegistry: InvoiceRegistryContract,
                 repaymentRouter: Router.XrpRepaymentRouter)
      ensures this.core == core && this.riskEngine == riskEngine && this.vault == vault && this.token == token
      ensures this.proofRegistry == proofRegistry && this.invoiceRegistry == invoiceRegistry
      ensures this.repaymentRouter == repaymentRouter
    {
      this.core, this.riskEngine, this.vault, this.token := core, riskEngine, vault, token;
      this.proofRegistry, this.invoiceRegistry, this.repaymentRouter := proofRegistry, invoiceRegistry, repaymentRouter;
    }

    function Book(): AddressBook {
      AddressBook(core.address, proofRegistry.address, invoiceRegistry.address, riskEngine.address, vault.address,
                  token.address, repaymentRouter.address)
    }

    /** The contract objects themselves. */
    ghost function Contracts(): set<object> {
      {core, riskEngine, vault, token, proofRegistry, invoiceRegistry, repaymentRouter}
    }

    /** The references between the contracts. */
    ghost predicate Valid()
      reads core, vault
    {
      && Book().Distinct()
      && core.proofRegistry == proofRegistry && core.invoiceRegistry == invoiceRegistry
      && riskEngine.reserveLedger == core && vault.reserveLedger == core && vault.riskEngine == riskEngine
      && vault.token == token
      && repaymentRouter.vault == vault && repaymentRouter.proofRegistry == proofRegistry
    }

    ghost function World(): World
      requires Valid()
      reads core, riskEngine, vault, token, proofRegistry, invoiceRegistry, repaymentRouter
    {
      Protocol.World.World(Book(), core.State(), proofRegistry.State(), invoiceRegistry.State(), riskEngine.State(),
                           vault.State(), token.State(), repaymentRouter.State())
    }

    method CallCore(tx: Tx, c: CoreCall) returns (out: Outcome<()>)
      requires Valid()
      modifies core, proofRegistry, invoiceRegistry
      ensures Valid() && Tracks(out, old(StepCore(World(), tx, c)), World())
    {
      match c
      case SetBorrowerApproval(b, ok) => out := core.SetBorrowerApproval(tx.sender, b, ok);
      // Both registries are already set, so these two revert whichever registry is offered.
      case SetProofRegistry(r) =>
        out := core.SetProofRegistry(tx.sender, if r == ZERO_ADDRESS then null else proofRegistry);
      case SetInvoiceRegistry(r) =>
        out := core.SetInvoiceRegistry(tx.sender, if r == ZERO_ADDRESS then null else invoiceRegistry);
      case RegisterReserveAccount(h) => var id := core.RegisterReserveAccount(tx.sender, h); out := Done(id);
      case ApproveReserveAccount(id) => out := core.ApproveReserveAccount(tx.sender, id);
      case SetReserveAccountFrozen(id, f) => out := core.SetReserveAccountFrozen(tx.sender, id, f);
      case SubmitXrpPaymentProof(id, p) => out := core.SubmitXrpPaymentProof(tx.sender, tx.env, id, p);
      case SubmitInvoicePaymentProof(id, invoiceId, p) =>
        out := core.SubmitInvoicePaymentProof(tx.sender, tx.env, id, invoiceId, p);
      case ChangeCoreRole(op) => out := core.ChangeRole(tx.sender, op);
    }

    method CallRegistry(tx: Tx, c: RegistryCall) returns (out: Outcome<()>)
      requires Valid()
      modifies proofRegistry
      ensures Valid() && Tracks(out, old(StepRegistry(World(), tx, c)), World())
    {
      match c
      case SetProofConsumer(a, allowed) => out := proofRegistry.SetProofConsumer(tx.sender, a, allowed);
      case Consume(id) => out := proofRegistry.Consume(tx.sender, id);
      case ChangeRegistryRole(op) => out := proofRegistry.ChangeRole(tx.sender, op);
    }

    method CallInvoices(tx: Tx, c: InvoiceCall) returns (out: Outcome<()>)
      requires Valid()
      modifies invoiceRegistry
      ensures Valid() && Tracks(out, old(StepInvoices(World(), tx, c)), World())
    {
      match c
      case CreateInvoice(id, payer, min, due, memo) =>
        var r := invoiceRegistry.CreateInvoice(tx.sender, tx.env.now, id, payer, min, due, memo); out := Done(r);
      case SettleFromCore(id, proof, payer, amount, paid, memo) =>
        out := invoiceRegistry.SettleFromCore(tx.sender, id, proof, payer, amount, paid, memo);
      case CancelInvoice(id) => out := invoiceRegistry.CancelInvoice(tx.sender, id);
      case ExpireInvoice(id) => out := invoiceRegistry.ExpireInvoice(tx.env.now, id);
    }

    method CallVault(tx: Tx, c: VaultCall) returns (out: Outcome<()>)
      requires Valid()
      modifies vault, token
      ensures Valid() && Tracks(out, old(StepVault(World(), tx, c)), World())
    {
      match c
      // The token is already set, so this reverts whichever token is offered.
      case SetToken(t) => out := vault.SetToken(tx.sender, if t == ZERO_ADDRESS then null else token);
      case SetBorrowingPaused(p) => out := vault.SetBorrowingPaused(tx.sender, p);
      case SetRepaymentRouter(r) => out := vault.SetRepaymentRouter(tx.sender, r);
      case OpenCreditLine(id) => out := vault.OpenCreditLine(tx.sender, tx.env.now, id);
      case Borrow(amount) => out := vault.Borrow(tx.sender, tx.env, amount);
      case Repay(amount) => out := vault.Repay(tx.sender, tx.env.now, amount);
      case SyncRisk => out := vault.SyncRisk(tx.sender, tx.env);
      case SettleXrpRepayment(b, amount) => out := vault.SettleXrpRepayment(tx.sender, tx.env.now, b, amount);
      case ReserveXrpRepayment(b, amount) => out := vault.ReserveXrpRepayment(tx.sender, b, amount);
      case ReleaseXrpRepayment(b, amount) => out := vault.ReleaseXrpRepayment(tx.sender, b, amount);
      case ChangeVaultRole(op) => out := vault.ChangeRole(tx.sender, op);
    }

    method CallToken(tx: Tx, c: TokenCall) returns (out: Outcome<()>)
      requires Valid()
      modifies token
      ensures Valid() && Tracks(out, old(StepToken(World(), tx, c)), World())
    {
      match c
      case Transfer(to, amount) => out := token.Transfer(tx.sender, to, amount);
      case TransferFrom(from, to, amount) => out := token.TransferFrom(tx.sender, from, to, amount);
      case Approve(spender, amount) => out := token.Approve(tx.sender, spender, amount);
      case Mint(to, amount) => out := token.Mint(tx.sender, to, amount);
      case ChangeTokenRole(op) => out := token.ChangeRole(tx.sender, op);
    }

    method CallRouter(tx: Tx, c: RouterCall) returns (out: Outcome<()>)
      requires Valid()
      modifies repaymentRouter, vault, proofRegistry
      ensures Valid() && Tracks(out, old(StepRouter(World(), tx, c)), World())
    {
      match c
      case CreateRepaymentIntent(id, wad, memo, exp) =>
        var r := repaymentRouter.CreateRepaymentIntent(tx.sender, tx.env, id, wad, memo, exp); out := Done(r);
      case SettleRepaymentWithProof(id, p) => out := repaymentRouter.SettleRepaymentWithProof(tx.sender, tx.env, id, p);
      case CancelRepaymentIntent(id) => out := repaymentRouter.CancelRepaymentIntent(tx.sender, id);
      case ExpireRepaymentIntent(id) => out := repaymentRouter.ExpireRepaymentIntent(tx.env.now, id);
    }

    method Dispatch(tx: Tx) returns (out: Outcome<()>)
      requires Valid()
      modifies Contracts()
      ensures Valid() && Tracks(out, old(Step(World(), tx)), World())
    {
      match tx.call
      case ToCore(c) => out := CallCore(tx, c);
      case ToRegistry(c) => out := CallRegistry(tx, c);
      case ToInvoices(c) => out := CallInvoices(tx, c);
      case ToRisk(next) => out := riskEngine.SetRiskConfig(tx.sender, next);
      case ToVault(c) => out := CallVault(tx, c);
      case ToToken(c) => out := CallToken(tx, c);
      case ToRouter(c) => out := CallRouter(tx, c);
    }

    /** One transaction. If the call reverts, whatever the contracts have already written is undone. */
    method Transact(tx: Tx) returns (out: Outcome<()>)
      requires Valid()
      modifies Contracts()
      ensures Valid()
      ensures World() == Next(old(World()), tx)
      ensures out.Ok? <==> Step(old(World()), tx).Ok?
      ensures out.Revert? ==> World() == old(World()) && Step(old(World()), tx) == Revert(out.error)
    {
      var (c, r, v) := (core.State(), riskEngine.State(), vault.State());
      var (t, p, i) := (token.State(), proofRegistry.State(), invoiceRegistry.State());
      ghost var ro := repaymentRouter.State();
      var (nonces, intents, events) := (repaymentRouter.nextNonce, repaymentRouter.intents, repaymentRouter.events);
      out := Dispatch(tx);
      if out.Revert? {
        core.Rollback(c);
        riskEngine.Rollback(r);
        vault.Rollback(v);
        token.Rollback(t);
        proofRegistry.Rollback(p);
        invoiceRegistry.Rollback(i);
        repaymentRouter.Rollback(nonces, intents, events, ro.quotedPrice);
      }
    }
  }

  /** The contracts before the repayment router exists. */
  datatype Base = Base(core: Core.ReserveFlowCore, proofRegistry: XrpProofRegistry,
                       invoiceRegistry: InvoiceRegistryContract, riskEngine: Risk.RiskEngine,
                       vault: CreditVault, token: MockUSD)
  {
    ghost predicate Wired(s: Setup)
      reads core, vault
    {
      && core.address == s.at.core && proofRegistry.address == s.at.proofRegistry
        && invoiceRegistry.address == s.at.invoiceRegistry
      && riskEngine.address == s.at.riskEngine && vault.address == s.at.vault && token.address == s.at.token
      && core.proofRegistry == proofRegistry && core.invoiceRegistry == invoiceRegistry
        && riskEngine.reserveLedger == core
      && vault.reserveLedger == core && vault.riskEngine == riskEngine && vault.token == token
    }

    ghost predicate Initial(s: Setup)
      reads core, proofRegistry, invoiceRegistry, riskEngine, vault, token
    {
      var admin := Roles({s.riskAdmin}, {s.riskAdmin});
      && s.config.Valid()
      && core.State() == Core.CoreState(admin, s.at.proofRegistry, s.at.invoiceRegistry, {s.approvedBorrower}, map[],
                                        {}, [])
      && proofRegistry.State() == RegistryState(Roles({s.riskAdmin}, {s.at.core}), {}, [])
      && invoiceRegistry.State() == InvoiceState(s.at.core, map[], map[])
      && riskEngine.State() == Risk.RiskState(s.riskAdmin, 2, s.config)
      && vault.State() == VaultState(admin, s.at.token, ZERO_ADDRESS, false, map[], map[], [])
      && token.State() == Minted(s.at.vault)
    }
  }

  /** What `deploy` returns, as a function of the setup; the collection address is checked by its caller. */
  function DeployCheck(s: Setup): Outcome<()> {
    s.(collection := Word(1)).Checked()
  }

  /** The first part of `deploy`: the core with its two registries. Once the first call has shown that the
      deployer is the administrator, the other wiring calls cannot revert. */
  method DeployLedger(s: Setup)
    returns (out: Outcome<(Core.ReserveFlowCore, XrpProofRegistry, InvoiceRegistryContract)>)
    ensures out.Ok? <==> s.deployer == s.riskAdmin
    ensures out.Revert? ==> out.error == UnauthorizedAccount
    ensures out.Ok? ==> var (core, proofRegistry, invoiceRegistry) := out.value;
      var admin := Roles({s.riskAdmin}, {s.riskAdmin});
      && fresh(core) && fresh(proofRegistry) && fresh(invoiceRegistry)
      && core.address == s.at.core && proofRegistry.address == s.at.proofRegistry
        && invoiceRegistry.address == s.at.invoiceRegistry
      && core.proofRegistry == proofRegistry && core.invoiceRegistry == invoiceRegistry
      && core.State() == Core.CoreState(admin, s.at.proofRegistry, s.at.invoiceRegistry, {}, map[], {}, [])
      && proofRegistry.State() == RegistryState(Roles({s.riskAdmin}, {s.at.core}), {}, [])
      && invoiceRegistry.State() == InvoiceState(s.at.core, map[], map[])
  {
    NonZero(s.at);
    var core := new Core.ReserveFlowCore(s.at.core, s.riskAdmin);
    var proofRegistry := new XrpProofRegistry(s.at.proofRegistry, s.riskAdmin);
    var _ :- proofRegistry.SetProofConsumer(s.deployer, s.at.core, true);
    var wired := core.SetProofRegistry(s.deployer, proofRegistry);
    var invoiceRegistry := new InvoiceRegistryContract(s.at.invoiceRegistry, s.at.core);
    wired := core.SetInvoiceRegistry(s.deployer, invoiceRegistry);
    return Ok((core, proofRegistry, invoiceRegistry));
  }

  method Deploy(s: Setup) returns (out: Outcome<Base>)
    ensures out.Ok? <==> DeployCheck(s).Ok?
    ensures out.Revert? ==> DeployCheck(s) == Revert(out.error)
    ensures out.Ok? ==> out.value.Wired(s) && out.value.Initial(s)
    ensures out.Ok? ==> var b := out.value;
      fresh(b.core) && fresh(b.proofRegistry) && fresh(b.invoiceRegistry) && fresh(b.riskEngine) && fresh(b.vault)
        && fresh(b.token)
  {
    NonZero(s.at);
    var _ :- Require(s.approvedBorrower != ZERO_ADDRESS, InvalidApprovedBorrower);
    var _ :- Require(s.chainId == COSTON2_CHAIN_ID, UnsupportedChain);
    var _ :- Require(s.riskAdmin != ZERO_ADDRESS, ZeroAddress);
    var _ :- Require(s.verifier != ZERO_ADDRESS, ZeroAddress);
    var ledger :- DeployLedger(s);
    var (core, proofRegistry, invoiceRegistry) := ledger;
    var _ :- Require(s.priceFeed != ZERO_ADDRESS, ZeroAddress);
    var riskEngine := new Risk.RiskEngine(s.at.riskEngine, s.riskAdmin, core);
    var vault := new CreditVault(s.at.vault, s.riskAdmin, core, riskEngine);
    var token := new MockUSD(s.at.token, s.deployer, s.at.vault);
    var wired := vault.SetToken(s.deployer, token);
    wired := core.SetBorrowerApproval(s.deployer, s.approvedBorrower, true);
    var _ :- riskEngine.SetRiskConfig(s.deployer, s.config);
    return Ok(Base(core, proofRegistry, invoiceRegistry, riskEngine, vault, token));
  }

  /** The fixed creation and wiring sequence, sent by `s.deployer`. */
  method DeployWithXrpRepayment(s: Setup) returns (out: Outcome<Deployment>)
    ensures out.Ok? <==> Genesis(s).Ok?
    ensures out.Revert? ==> Genesis(s) == Revert(out.error)
    ensures out.Ok? ==> fresh(out.value) && out.value.Valid() && out.value.World() == Genesis(s).value
    ensures out.Ok? ==> fresh(out.value.Contracts())
  {
    NonZero(s.at);
    var _ :- Require(s.collection != ZERO_BYTES32, InvalidApprovedBorrower);
    var b :- Deploy(s);
    var router := new Router.XrpRepaymentRouter(s.at.repaymentRouter, b.vault, b.proofRegistry, s.collection,
                                                b.riskEngine.config.priceTtlSeconds);
    var wired := b.proofRegistry.SetProofConsumer(s.deployer, s.at.repaymentRouter, true);
    wired := b.vault.SetRepaymentRouter(s.deployer, s.at.repaymentRouter);
    var d := new Deployment(b.core, b.riskEngine, b.vault, b.token, b.proofRegistry, b.invoiceRegistry, router);
    return Ok(d);
  }

  lemma NonZero(at: Addresses)
    ensures at.core != ZERO_ADDRESS && at.proofRegistry != ZERO_ADDRESS && at.invoiceRegistry != ZERO_ADDRESS
    ensures at.vault != ZERO_ADDRESS && at.token != ZERO_ADDRESS && at.repaymentRouter != ZERO_ADDRESS
  {
    var all := at.All();
    assert at.core == all[0] && at.proofRegistry == all[1] && at.invoiceRegistry == all[2];
    assert at.vault == all[4] && at.token == all[5] && at.repaymentRouter == all[6];
  }

  function Done<T>(r: Outcome<T>): Outcome<()> {
    match r
    case Ok(_) => Ok(())
    case Revert(e) => Revert(e)
  }
}
