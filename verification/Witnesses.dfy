/** Runs from deployment that end where the system does less than one may expect. One borrower registers an
    XRPL address, is approved, and receives one payment; what happens next differs. */
module Witnesses {
  import opened Evm
  import opened Protocol
  import opened CreditVault
  import Core = ReserveFlowCore
  import Risk = RiskEngine
  import Router = XrpRepaymentRouter
  import Inv = InvoiceRegistry
  import Preview = CreditPreview
  import AccessControl
  import Ledger

  const ADMIN: Address := 100
  const BORROWER: Address := 200
  const STRANGER: Address := 300
  const XRPL_ADDRESS: Bytes32 := Word(1)
  const PAYER: Bytes32 := Word(2)
  const ACCOUNT: Bytes32 := AccountId(BORROWER, TEST_XRP, XRPL_ADDRESS)
  const OTHER: Bytes32 := AccountId(STRANGER, TEST_XRP, Word(3))

  const SETUP: Setup := Setup(ADMIN, ADMIN, BORROWER, Risk.DEFAULT_CONFIG, Word(9), COSTON2_CHAIN_ID, 50, 51,
                              AddressBook(1, 2, 3, 4, 5, 6, 7))

  function Now(price: uint256): Env { Env(1000, price, 1000, true) }

  function Received(drops: int256): Payment {
    Payment(TEST_XRP, Word(70), BORROWER, 1, 1000, PAYER, XRPL_ADDRESS, drops, drops, [], 0)
  }

  lemma RunSnoc(w: World, txs: seq<Tx>, tx: Tx)
    ensures Run(w, txs + [tx]) == Next(Run(w, txs), tx)
  {
    assert (txs + [tx])[..|txs|] == txs;
  }

  // ---- The common beginning -----------------------------------------------------

  function Opening(price: uint256): seq<Tx> {
    [Tx(BORROWER, Now(price), ToCore(RegisterReserveAccount(XRPL_ADDRESS))),
     Tx(ADMIN, Now(price), ToCore(ApproveReserveAccount(ACCOUNT)))]
  }

  /** The account as it stands after a first payment of `drops`, or none if `drops` is 0. */
  function Account(drops: uint256): Core.ReserveAccount {
    if drops == 0 then Core.ReserveAccount(BORROWER, TEST_XRP, XRPL_ADDRESS, 0, 0, 0, Core.Active)
    else Core.ReserveAccount(BORROWER, TEST_XRP, XRPL_ADDRESS, drops, 1, 1000, Core.Active)
  }

  lemma Registered(price: uint256) returns (w: World)
    ensures Genesis(SETUP).Ok? && w == Run(Genesis(SETUP).value, [Opening(price)[0]])
    ensures var g := Genesis(SETUP).value;
      w == g.(core := g.core.(accounts := map[ACCOUNT := Account(0).(status := Core.PendingApproval)]))
  {
    var g := Genesis(SETUP).value;
    w := Next(g, Opening(price)[0]);
    RunSnoc(g, [], Opening(price)[0]);
    assert [] + [Opening(price)[0]] == [Opening(price)[0]];
  }

  lemma Opened(price: uint256) returns (w: World)
    ensures Genesis(SETUP).Ok? && AllExternal(SETUP.at, Opening(price))
    ensures w == Run(Genesis(SETUP).value, Opening(price))
    ensures var g := Genesis(SETUP).value; w == g.(core := g.core.(accounts := map[ACCOUNT := Account(0)]))
  {
    var w1 := Registered(price);
    w := Next(w1, Opening(price)[1]);
    RunSnoc(Genesis(SETUP).value, [Opening(price)[0]], Opening(price)[1]);
    assert [Opening(price)[0]] + [Opening(price)[1]] == Opening(price);
  }

  function Funding(drops: int256, price: uint256): seq<Tx> {
    Opening(price) + [Tx(BORROWER, Now(price), ToCore(SubmitXrpPaymentProof(ACCOUNT, Received(drops))))]
  }

  lemma Funded(drops: int256, price: uint256) returns (w: World)
    requires drops > 0
    ensures Reaches(SETUP, Funding(drops, price), w)
    ensures w.core.accounts == map[ACCOUNT := Account(drops)]
    ensures var g := Genesis(SETUP).value; w == g.(core := w.core, registry := w.registry)
  {
    var w2 := Opened(price);
    var tx := Tx(BORROWER, Now(price), ToCore(SubmitXrpPaymentProof(ACCOUNT, Received(drops))));
    w := Next(w2, tx);
    RunSnoc(Genesis(SETUP).value, Opening(price), tx);
  }

  function Borrowing(drops: int256, price: uint256, debt: uint256): seq<Tx> {
    Funding(drops, price)
    + [Tx(BORROWER, Now(price), ToVault(OpenCreditLine(ACCOUNT)))]
    + [Tx(BORROWER, Now(price), ToVault(Borrow(debt)))]
  }

  lemma LineOpened(w: World, price: uint256, balance: uint256) returns (w': World)
    requires w.core.accounts == map[ACCOUNT := Account(balance)] && w.vault.positions == map[]
    ensures w' == Next(w, Tx(BORROWER, Now(price), ToVault(OpenCreditLine(ACCOUNT))))
    ensures w' == w.(vault := w.vault.(positions := map[BORROWER := CreditPosition(ACCOUNT, 0, 1000, 0)]))
  {
    w' := Next(w, Tx(BORROWER, Now(price), ToVault(OpenCreditLine(ACCOUNT))));
  }

  /** After a borrow within the limit, the borrower owes and holds `debt`. */
  lemma DebtTaken(w: World, price: uint256, debt: uint256) returns (w': World)
    requires var g := Genesis(SETUP).value; w == g.(core := w.core, registry := w.registry,
               vault := g.vault.(positions := map[BORROWER := CreditPosition(ACCOUNT, 0, 1000, 0)]))
    requires var s := w.risk.GetSnapshot(w.core.accounts, Now(price), ACCOUNT, 0);
      s.Ok? && s.value.status == Risk.Healthy && 0 < debt <= s.value.creditLimitWad && debt <= 1_000_000
    ensures w' == Next(w, Tx(BORROWER, Now(price), ToVault(Borrow(debt))))
    ensures w' == w.(vault := w'.vault, token := w'.token)
    ensures w'.vault == w.vault.(log := w'.vault.log,
                                 positions := map[BORROWER := CreditPosition(ACCOUNT, debt, 1000, 1000)])
    ensures w'.token.BalanceOf(BORROWER) == debt
  {
    var tx := Tx(BORROWER, Now(price), ToVault(Borrow(debt)));
    w' := Next(w, tx);
    assert w.token.Move(w.at.vault, BORROWER, debt).Ok?;
    assert StepVault(w, tx, Borrow(debt)).Ok?;
  }

  lemma Indebted(drops: int256, price: uint256, debt: uint256) returns (w: World)
    requires drops > 0 && 0 < debt <= 1_000_000
    requires var s := Risk.Snapshot(Risk.DEFAULT_CONFIG, Account(drops), 0, price, 1000, 1000);
      s.Ok? && debt <= s.value.creditLimitWad
    ensures Reaches(SETUP, Borrowing(drops, price, debt), w)
    ensures w.core.accounts == map[ACCOUNT := Account(drops)] && w.token.BalanceOf(BORROWER) == debt
    ensures var g := Genesis(SETUP).value;
      && w == g.(core := w.core, registry := w.registry, vault := w.vault, token := w.token)
      && w.vault == g.vault.(log := w.vault.log,
                             positions := map[BORROWER := CreditPosition(ACCOUNT, debt, 1000, 1000)])
  {
    var w3 := Funded(drops, price);
    var w4 := LineOpened(w3, price, drops);
    w := DebtTaken(w4, price, debt);
    var g := Genesis(SETUP).value;
    var (open, borrow) := (Tx(BORROWER, Now(price), ToVault(OpenCreditLine(ACCOUNT))),
                           Tx(BORROWER, Now(price), ToVault(Borrow(debt))));
    RunSnoc(g, Funding(drops, price), open);
    RunSnoc(g, Funding(drops, price) + [open], borrow);
  }

  // ---- A reservation the preview does not see -----------------------------------

  const PRICE: uint256 := 1_000_000_000_000_000_000

  function Reserving(): seq<Tx> {
    Borrowing(1_000_000, PRICE, 10)
    + [Tx(BORROWER, Now(PRICE), ToRouter(CreateRepaymentIntent(ACCOUNT, 4, Word(8), 2000)))]
    + [Tx(BORROWER, Now(PRICE), ToToken(Approve(SETUP.at.vault, 10)))]
  }

  lemma IntentCreated(w: World) returns (w': World)
    requires var g := Genesis(SETUP).value; w == g.(core := w.core, registry := w.registry, token := w.token,
               vault := g.vault.(log := w.vault.log,
                                 positions := map[BORROWER := CreditPosition(ACCOUNT, 10, 1000, 1000)]))
    ensures w' == Next(w, Tx(BORROWER, Now(PRICE), ToRouter(CreateRepaymentIntent(ACCOUNT, 4, Word(8), 2000))))
    ensures w' == w.(router := w'.router, vault := w.vault.(pending := map[BORROWER := 4]))
  {
    var tx := Tx(BORROWER, Now(PRICE), ToRouter(CreateRepaymentIntent(ACCOUNT, 4, Word(8), 2000)));
    w' := Next(w, tx);
    assert MulDivCeil(4, Risk.DROPS_PER_XRP, PRICE) == Ok(1);
    assert StepRouter(w, tx, tx.call.router).Ok?;
  }

  lemma VaultApproved(w: World) returns (w': World)
    requires w.at == SETUP.at
    ensures w' == Next(w, Tx(BORROWER, Now(PRICE), ToToken(Approve(SETUP.at.vault, 10))))
    ensures w' == w.(token := w'.token) && w'.token.balances == w.token.balances
    ensures w'.token.Allowance(BORROWER, w.at.vault) == 10
  {
    w' := Next(w, Tx(BORROWER, Now(PRICE), ToToken(Approve(SETUP.at.vault, 10))));
  }

  lemma LineReserved() returns (w: World)
    ensures Reaches(SETUP, Reserving(), w)
    ensures BORROWER in w.vault.positions && w.vault.Principal(BORROWER) == 10 && w.vault.Pending(BORROWER) == 4
    ensures w.token.BalanceOf(BORROWER) == 10 && w.token.Allowance(BORROWER, w.at.vault) == 10
    ensures w.vault.token != ZERO_ADDRESS
  {
    var w5 := Indebted(1_000_000, PRICE, 10);
    var w6 := IntentCreated(w5);
    w := VaultApproved(w6);
    var (g, txs) := (Genesis(SETUP).value, Borrowing(1_000_000, PRICE, 10));
    var intent := Tx(BORROWER, Now(PRICE), ToRouter(CreateRepaymentIntent(ACCOUNT, 4, Word(8), 2000)));
    RunSnoc(g, txs, intent);
    RunSnoc(g, txs + [intent], Tx(BORROWER, Now(PRICE), ToToken(Approve(SETUP.at.vault, 10))));
  }

  /** A run from deployment after which the preview shows REPAY for a repayment of 8, whatever risk snapshot it
      is given, and the vault refuses it: 4 of the 10 owed are reserved for an XRP repayment. */
  lemma RepayPreviewMissesReservations(risk: Preview.RiskView, env: Env) returns (w: World)
    ensures Reaches(SETUP, Reserving(), w)
    ensures Preview.BuildRepaymentPreview(w.token.Allowance(BORROWER, w.at.vault), 8, w.token.BalanceOf(BORROWER),
                                          w.vault.Principal(BORROWER), risk).Repay?
    ensures StepVault(w, Tx(BORROWER, env, ToVault(Repay(8))), Repay(8)) == Revert(RepaymentReserved)
  {
    w := LineReserved();
  }

  // ---- An invoice settled into another account ----------------------------------

  const INVOICE: Bytes32 := InvoiceId(STRANGER, OTHER, PAYER, MemoHash([]), 0)

  function Invoicing(): seq<Tx> {
    Opening(PRICE)
    + [Tx(STRANGER, Now(PRICE), ToInvoices(CreateInvoice(OTHER, PAYER, 1, 2000, MemoHash([]))))]
    + [Tx(BORROWER, Now(PRICE), ToCore(SubmitInvoicePaymentProof(ACCOUNT, INVOICE, Received(5))))]
  }

  lemma InvoiceCreated(w: World) returns (w': World)
    requires w.invoices == Genesis(SETUP).value.invoices
    ensures w' == Next(w, Tx(STRANGER, Now(PRICE), ToInvoices(CreateInvoice(OTHER, PAYER, 1, 2000, MemoHash([])))))
    ensures w' == w.(invoices := w.invoices.(nextNonce := map[STRANGER := 1], invoices := map[INVOICE :=
              Inv.Invoice(STRANGER, OTHER, PAYER, MemoHash([]), ZERO_BYTES32, 1, 0, 2000, 0, Inv.Open)]))
  {
    w' := Next(w, Tx(STRANGER, Now(PRICE), ToInvoices(CreateInvoice(OTHER, PAYER, 1, 2000, MemoHash([])))));
  }

  /** A run from deployment that settles a stranger's invoice, which names another account, with a payment
      that was received by and credited to the borrower's account. */
  lemma InvoiceSettledElsewhere() returns (w: World)
    ensures Reaches(SETUP, Invoicing(), w)
    ensures INVOICE in w.invoices.invoices && |w.core.log| == 1 && ACCOUNT in w.core.accounts
    ensures var (i, e) := (w.invoices.invoices[INVOICE], w.core.log[0]);
      && i.status == Inv.Settled && Ledger.PaidBy(i, e)
      && e.accountId == ACCOUNT && i.reserveAccountId != e.accountId
      && i.borrower != w.core.accounts[ACCOUNT].borrower
  {
    var w2 := Opened(PRICE);
    var w3 := InvoiceCreated(w2);
    w := InvoicePaid(w3, Tx(BORROWER, Now(PRICE), ToCore(SubmitInvoicePaymentProof(ACCOUNT, INVOICE, Received(5)))));
    InvoicingSteps(w2, w3, w);
  }

  lemma InvoicingSteps(w2: World, w3: World, w4: World)
    requires Genesis(SETUP).Ok? && AllExternal(SETUP.at, Opening(PRICE))
    requires w2 == Run(Genesis(SETUP).value, Opening(PRICE))
    requires w3 == Next(w2, Invoicing()[2]) && w4 == Next(w3, Invoicing()[3])
    ensures Reaches(SETUP, Invoicing(), w4)
  {
    var (g, txs) := (Genesis(SETUP).value, Opening(PRICE));
    RunSnoc(g, txs, Invoicing()[2]);
    RunSnoc(g, txs + [Invoicing()[2]], Invoicing()[3]);
    assert Invoicing() == txs + [Invoicing()[2]] + [Invoicing()[3]];
  }

  lemma InvoicePaid(w: World, tx: Tx) returns (w': World)
    requires tx == Tx(BORROWER, Now(PRICE), ToCore(SubmitInvoicePaymentProof(ACCOUNT, INVOICE, Received(5))))
    requires var g := Genesis(SETUP).value;
      w == g.(invoices := w.invoices, core := g.core.(accounts := map[ACCOUNT := Account(0)]))
    requires w.invoices.core == w.at.core && w.invoices.invoices ==
      map[INVOICE := Inv.Invoice(STRANGER, OTHER, PAYER, MemoHash([]), ZERO_BYTES32, 1, 0, 2000, 0, Inv.Open)]
    ensures w' == Next(w, tx) && INVOICE in w'.invoices.invoices && |w'.core.log| == 1 && ACCOUNT in w'.core.accounts
    ensures var (i, e) := (w'.invoices.invoices[INVOICE], w'.core.log[0]);
      && i.status == Inv.Settled && Ledger.PaidBy(i, e) && e.accountId == ACCOUNT
      && i.reserveAccountId == OTHER && i.borrower == STRANGER && w'.core.accounts[ACCOUNT].borrower == BORROWER
  {
    w' := Next(w, tx);
    assert StepCore(w, tx, tx.call.core).Ok?;
  }

  // ---- A health factor beyond the word range ------------------------------------

  const HUGE: uint256 := 0x1000_0000_0000_0000_0000_0000_0000_0000_0000_0000_0000_0000_0000_0000_0000_0000
  const MICRO_PRICE: uint256 := 1_000_000

  /** 2^252 drops at a price of 10^6: without debt the account is HEALTHY, with a debt of 1 the health factor
      overflows and the engine reverts. */
  lemma HealthOverflow()
    ensures Risk.Snapshot(Risk.DEFAULT_CONFIG, Account(HUGE), 0, MICRO_PRICE, 1000, 1000).Ok?
    ensures Risk.Snapshot(Risk.DEFAULT_CONFIG, Account(HUGE), 0, MICRO_PRICE, 1000, 1000).value.status == Risk.Healthy
    ensures Risk.Snapshot(Risk.DEFAULT_CONFIG, Account(HUGE), 0, MICRO_PRICE, 1000, 1000).value.creditLimitWad > 1
    ensures Risk.Snapshot(Risk.DEFAULT_CONFIG, Account(HUGE), 1, MICRO_PRICE, 1000, 1000) == Revert(Panic)
  {}

  /** A run from deployment whose last borrow is accepted although the engine cannot evaluate the debt it leaves
      at the same price and time. */
  lemma BorrowLeavesNoAnswer() returns (w: World)
    ensures Reaches(SETUP, Borrowing(HUGE, MICRO_PRICE, 1), w)
    ensures BORROWER in w.vault.positions && w.vault.Principal(BORROWER) == 1
    ensures w.risk.GetSnapshot(w.core.accounts, Now(MICRO_PRICE), w.vault.positions[BORROWER].reserveAccountId, 1)
      == Revert(Panic)
  {
    HealthOverflow();
    w := Indebted(HUGE, MICRO_PRICE, 1);
  }
}
