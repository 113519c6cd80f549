/** What deployment fixes for good: who is connected to whom, and the token supply. */
module Wiring {
  import opened Evm
  import opened AccessControl
  import opened MockUsd
  import opened Protocol

  ghost predicate Wired(w: World) {
    && w.vault.repaymentRouter == w.at.repaymentRouter
    && w.vault.token == w.at.token
    && w.core.proofRegistry == w.at.proofRegistry
    && w.core.invoiceRegistry == w.at.invoiceRegistry
    && w.invoices.core == w.at.core
  }

  /** No minter and no role administrator is left, and the vault has approved nobody. */
  ghost predicate Sealed(t: TokenState, vault: Address) {
    && t.roles == Roles({}, {})
    && t.totalSupply == INITIAL_VAULT_LIQUIDITY
    && forall spender: Address :: t.Allowance(vault, spender) == 0
  }

  // ---- What one call of each contract can touch ---------------------------------

  lemma CoreFrame(w: World, tx: Tx, c: CoreCall)
    requires Wired(w) && StepCore(w, tx, c).Ok?
    ensures var w' := StepCore(w, tx, c).value;
      && w' == w.(core := w'.core, registry := w'.registry, invoices := w'.invoices) && Wired(w')
      && (c.SubmitXrpPaymentProof? || c.SubmitInvoicePaymentProof? || w'.registry == w.registry)
      && (c.SubmitInvoicePaymentProof? || w'.invoices == w.invoices)
  {}

  lemma InvoicesFrame(w: World, tx: Tx, c: InvoiceCall)
    requires Wired(w) && StepInvoices(w, tx, c).Ok?
    ensures var w' := StepInvoices(w, tx, c).value; w' == w.(invoices := w'.invoices) && Wired(w')
  {}

  lemma VaultFrame(w: World, tx: Tx, c: VaultCall)
    requires Wired(w) && StepVault(w, tx, c).Ok?
    ensures var w' := StepVault(w, tx, c).value;
      && w' == w.(vault := w'.vault, token := w'.token) && Wired(w')
      && (c.Borrow? || c.Repay? || w'.token == w.token)
  {}

  lemma RouterFrame(w: World, tx: Tx, c: RouterCall)
    requires Wired(w) && StepRouter(w, tx, c).Ok?
    ensures var w' := StepRouter(w, tx, c).value;
      && w' == w.(router := w'.router, vault := w'.vault, registry := w'.registry) && Wired(w')
      && (c.SettleRepaymentWithProof? || w'.registry == w.registry)
  {}

  lemma WiredStep(w: World, tx: Tx)
    requires Wired(w)
    ensures Wired(Next(w, tx)) && Next(w, tx).at == w.at
  {
    if Step(w, tx).Ok? {
      match tx.call
      case ToCore(c) => CoreFrame(w, tx, c);
      case ToInvoices(c) => InvoicesFrame(w, tx, c);
      case ToVault(c) => VaultFrame(w, tx, c);
      case ToRouter(c) => RouterFrame(w, tx, c);
      case _ => {}
    }
  }

  lemma MoveKeepsSealed(t: TokenState, vault: Address, from: Address, to: Address, amount: uint256)
    requires Sealed(t, vault) && t.Move(from, to, amount).Ok?
    ensures Sealed(t.Move(from, to, amount).value, vault)
  {
    forall s: Address ensures t.Move(from, to, amount).value.Allowance(vault, s) == 0 {
      assert t.Allowance(vault, s) == 0;
    }
  }

  lemma TransferFromKeepsSealed(t: TokenState, vault: Address, spender: Address, from: Address, to: Address,
                                amount: uint256)
    requires Sealed(t, vault) && t.TransferFrom(spender, from, to, amount).Ok?
    ensures Sealed(t.TransferFrom(spender, from, to, amount).value, vault)
  {
    var t' := t.TransferFrom(spender, from, to, amount).value;
    forall s: Address ensures t'.Allowance(vault, s) == 0 {
      assert t.Allowance(vault, s) == 0;
      assert (vault, s) == (from, spender) || t'.Allowance(vault, s) == t.Allowance(vault, s);
    }
  }

  lemma TokenCallKeepsSealed(w: World, tx: Tx, c: TokenCall)
    requires Sealed(w.token, w.at.vault) && tx.sender != w.at.vault && StepToken(w, tx, c).Ok?
    ensures Sealed(StepToken(w, tx, c).value.token, w.at.vault)
  {
    match c
    case Transfer(to, amount) => MoveKeepsSealed(w.token, w.at.vault, tx.sender, to, amount);
    case TransferFrom(from, to, amount) => TransferFromKeepsSealed(w.token, w.at.vault, tx.sender, from, to, amount);
    case Approve(spender, amount) =>
      var t' := StepToken(w, tx, c).value.token;
      forall s: Address ensures t'.Allowance(w.at.vault, s) == 0 {
        assert w.token.Allowance(w.at.vault, s) == 0;
      }
    case _ => {}
  }

  lemma BorrowEffect(w: World, tx: Tx, amount: uint256)
    requires StepVault(w, tx, Borrow(amount)).Ok?
    ensures w.token.Move(w.at.vault, tx.sender, amount) == Ok(StepVault(w, tx, Borrow(amount)).value.token)
  {}

  lemma RepayEffect(w: World, tx: Tx, amount: uint256)
    requires StepVault(w, tx, Repay(amount)).Ok?
    ensures w.token.TransferFrom(w.at.vault, tx.sender, w.at.vault, amount)
      == Ok(StepVault(w, tx, Repay(amount)).value.token)
  {}

  lemma VaultCallKeepsSealed(w: World, tx: Tx, c: VaultCall)
    requires Wired(w) && Sealed(w.token, w.at.vault) && StepVault(w, tx, c).Ok?
    ensures Sealed(StepVault(w, tx, c).value.token, w.at.vault)
  {
    VaultFrame(w, tx, c);
    match c
    case Borrow(amount) =>
      BorrowEffect(w, tx, amount);
      MoveKeepsSealed(w.token, w.at.vault, w.at.vault, tx.sender, amount);
    case Repay(amount) =>
      RepayEffect(w, tx, amount);
      TransferFromKeepsSealed(w.token, w.at.vault, w.at.vault, tx.sender, w.at.vault, amount);
    case _ => {}
  }

  lemma SealedStep(w: World, tx: Tx)
    requires Wired(w) && Sealed(w.token, w.at.vault) && tx.External(w.at)
    ensures Sealed(Next(w, tx).token, w.at.vault)
  {
    assert tx.sender != w.at.vault by { assert w.at.vault in w.at.All(); }
    if Step(w, tx).Ok? {
      match tx.call
      case ToCore(c) => CoreFrame(w, tx, c);
      case ToVault(c) =>
        VaultCallKeepsSealed(w, tx, c);
      case ToRouter(c) => RouterFrame(w, tx, c);
      case ToToken(c) => TokenCallKeepsSealed(w, tx, c);
      case _ => {}
    }
  }

  lemma GenesisWired(s: Setup)
    requires Genesis(s).Ok?
    ensures Wired(Genesis(s).value) && Sealed(Genesis(s).value.token, s.at.vault)
  {}
}
