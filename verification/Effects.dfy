/** What every accepted transaction leaves behind: each contract's storage, entry by entry. */
module Effects {
  import opened Evm
  import opened AccessControl
  import opened MockUsd
  import opened CreditVault
  import opened Protocol
  import opened Wiring
  import opened Reservations
  import opened Conservation
  import opened CreditMath
  import opened Rounding
  import opened Payments
  import opened Safety
  import opened Authority
  import opened Lifecycle
  import Core = ReserveFlowCore
  import Risk = RiskEngine
  import Router = XrpRepaymentRouter
  import Inv = InvoiceRegistry
  import ProofRegistry

  // ---- Roles --------------------------------------------------------------------

  predicate Holds(roles: Roles, role: Role, a: Address) {
    if role.DefaultAdmin? then a in roles.admins else a in roles.operators
  }

  /** The named account gains or loses the named role; every other holder stays. */
  ghost predicate RolesChanged(before: Roles, op: RoleOp, after: Roles) {
    forall role: Role, a: Address ::
      Holds(after, role, a) <==>
        if role == op.role && a == op.account then op.GrantRole? else Holds(before, role, a)
  }

  lemma RoleEffect(roles: Roles, sender: Address, op: RoleOp)
    requires roles.Change(sender, op).Ok?
    ensures RolesChanged(roles, op, roles.Change(sender, op).value)
  {}

  // ---- Core ---------------------------------------------------------------------

  ghost predicate CoreLeaves(w: World, tx: Tx, c: CoreCall, w': World) {
    var (core, core') := (w.core, w'.core);
    match c
    case SetBorrowerApproval(b, approved) =>
      && w' == w.(core := core.(approvedBorrowers := core'.approvedBorrowers))
      && forall a: Address :: a in core'.approvedBorrowers <==> if a == b then approved else a in core.approvedBorrowers
    case RegisterReserveAccount(h) =>
      var id := AccountId(tx.sender, TEST_XRP, h);
      && id !in core.accounts && id in core'.accounts
      && w' == w.(core := core.(accounts := core.accounts[id := core'.accounts[id]]))
      && var a := core'.accounts[id];
      && a.borrower == tx.sender && a.sourceId == TEST_XRP && a.externalAddressHash == h
      && a.balanceDrops == a.lastExternalLedger == a.lastAttestedAt == 0 && a.status == Core.PendingApproval
    case ApproveReserveAccount(id) =>
      && id in core.accounts
      && w' == w.(core := core.(accounts := core.accounts[id := core.accounts[id].(status := Core.Active)]))
    case SetReserveAccountFrozen(id, frozen) =>
      var status := if frozen then Core.Frozen else Core.Active;
      && id in core.accounts
      && w' == w.(core := core.(accounts := core.accounts[id := core.accounts[id].(status := status)]))
    case SubmitXrpPaymentProof(id, p) => w'.invoices == w.invoices && PaymentLeaves(w, id, p, w')
    case SubmitInvoicePaymentProof(id, k, p) =>
      && PaymentLeaves(w, id, p, w') && k in w.invoices.invoices
      && w'.core.log[|w.core.log|].incoming
      && w'.invoices == w.invoices.(invoices := w.invoices.invoices[k := w.invoices.invoices[k]
           .(status := Inv.Settled, settledProofId := p.Id(), settledAmountDrops := p.receivedAmount,
             settledAt := p.blockTimestamp)])
    case ChangeCoreRole(op) =>
      w' == w.(core := core.(roles := core'.roles)) && RolesChanged(core.roles, op, core'.roles)
    case _ => false
  }

  /** The account moves by the verified amount, one event reports it, and the proof is spent. */
  ghost predicate PaymentLeaves(w: World, id: Bytes32, p: Payment, w': World) {
    && id in w.core.accounts && w.core.log < w'.core.log
    && var (a, e) := (w.core.accounts[id], w'.core.log[|w.core.log|]);
    var balance := if e.incoming then a.balanceDrops + p.receivedAmount else a.balanceDrops - p.spentAmount;
    && (e.incoming <==> p.receivingAddressHash == a.externalAddressHash)
    && 0 <= balance <= MAX_UINT256 && e.amountDrops == (if e.incoming then p.receivedAmount else p.spentAmount)
    && e.accountId == id && e.proofId == p.Id() && e.balanceDrops == balance
    && e.externalLedger == p.blockNumber && e.attestedAt == p.blockTimestamp
    && w'.core == w.core.(log := w.core.log + [e], usedProofs := w.core.usedProofs + {p.Id()},
         accounts := w.core.accounts[id := a.(balanceDrops := balance, lastExternalLedger := p.blockNumber,
                                              lastAttestedAt := p.blockTimestamp)])
    && w'.registry == w.registry.(consumed := w.registry.consumed + {p.Id()},
         log := w.registry.log + [ProofRegistry.ProofConsumed(p.Id(), w.at.core)])
    && w' == w.(core := w'.core, registry := w'.registry, invoices := w'.invoices)
  }

  lemma CoreEffect(w: World, tx: Tx, c: CoreCall)
    requires Wired(w) && StepCore(w, tx, c).Ok?
    ensures CoreLeaves(w, tx, c, StepCore(w, tx, c).value)
  {
    assert w.at.proofRegistry in w.at.All() && w.at.invoiceRegistry in w.at.All();
    match c
    case SubmitXrpPaymentProof(id, p) => PaymentEffect(w, tx, id, p);
    case SubmitInvoicePaymentProof(id, k, p) => InvoicePaymentEffect(w, tx, id, k, p);
    case ChangeCoreRole(op) => RoleEffect(w.core.roles, tx.sender, op);
    case _ => {}
  }

  lemma PaymentEffect(w: World, tx: Tx, id: Bytes32, p: Payment)
    requires StepCore(w, tx, SubmitXrpPaymentProof(id, p)).Ok?
    ensures var w' := StepCore(w, tx, SubmitXrpPaymentProof(id, p)).value;
      w'.invoices == w.invoices && PaymentLeaves(w, id, p, w')
  {}

  lemma InvoicePaymentEffect(w: World, tx: Tx, id: Bytes32, k: Bytes32, p: Payment)
    requires StepCore(w, tx, SubmitInvoicePaymentProof(id, k, p)).Ok?
    ensures CoreLeaves(w, tx, SubmitInvoicePaymentProof(id, k, p),
                       StepCore(w, tx, SubmitInvoicePaymentProof(id, k, p)).value)
  {}

  // ---- Registries and configuration ---------------------------------------------

  ghost predicate RegistryLeaves(w: World, tx: Tx, c: RegistryCall, w': World) {
    var (r, r') := (w.registry, w'.registry);
    match c
    case SetProofConsumer(a, allowed) =>
      && w' == w.(registry := r.(roles := r'.roles))
      && forall role: Role, b: Address ::
           Holds(r'.roles, role, b) <==> if role.Operator? && b == a then allowed else Holds(r.roles, role, b)
    case Consume(id) =>
      w' == w.(registry := r.(consumed := r.consumed + {id},
                              log := r.log + [ProofRegistry.ProofConsumed(id, tx.sender)]))
    case ChangeRegistryRole(op) => w' == w.(registry := r.(roles := r'.roles)) && RolesChanged(r.roles, op, r'.roles)
  }

  lemma RegistryEffect(w: World, tx: Tx, c: RegistryCall)
    requires StepRegistry(w, tx, c).Ok?
    ensures RegistryLeaves(w, tx, c, StepRegistry(w, tx, c).value)
  {
    if c.ChangeRegistryRole? { RoleEffect(w.registry.roles, tx.sender, c.op); }
  }

  ghost predicate InvoicesLeave(w: World, tx: Tx, c: InvoiceCall, w': World) {
    var (s, s') := (w.invoices, w'.invoices);
    match c
    case CreateInvoice(account, payer, minimum, due, memo) =>
      var nonce := Lookup(s.nextNonce, tx.sender);
      var id := InvoiceId(tx.sender, account, payer, memo, nonce);
      && nonce < MAX_UINT256 && id in s'.invoices
      && w' == w.(invoices := s.(nextNonce := s.nextNonce[tx.sender := nonce + 1],
                                 invoices := s.invoices[id := s'.invoices[id]]))
      && var i := s'.invoices[id];
      && i.borrower == tx.sender && i.reserveAccountId == account && i.payerAddressHash == payer && i.memoHash == memo
      && i.minimumAmountDrops == minimum && i.dueAt == due && i.status == Inv.Open
      && i.settledProofId == ZERO_BYTES32 && i.settledAmountDrops == i.settledAt == 0
    case CancelInvoice(k) =>
      k in s.invoices
      && w' == w.(invoices := s.(invoices := s.invoices[k := s.invoices[k].(status := Inv.Cancelled)]))
    case ExpireInvoice(k) =>
      k in s.invoices
      && w' == w.(invoices := s.(invoices := s.invoices[k := s.invoices[k].(status := Inv.Expired)]))
    case _ => false
  }

  lemma InvoicesEffect(w: World, tx: Tx, c: InvoiceCall)
    requires Wired(w) && tx.sender != w.at.core && StepInvoices(w, tx, c).Ok?
    ensures InvoicesLeave(w, tx, c, StepInvoices(w, tx, c).value)
  {}

  // ---- Token --------------------------------------------------------------------

  /** `amount` has gone from one account to the other, and nothing else about the token has changed. */
  ghost predicate Paid(t: TokenState, t': TokenState, from: Address, to: Address, amount: nat) {
    && t'.totalSupply == t.totalSupply && t'.roles == t.roles
    && forall a: Address :: t'.BalanceOf(a) + (if a == from then amount else 0)
                            == t.BalanceOf(a) + (if a == to then amount else 0)
  }

  /** The spender may spend `amount` less, unless it may spend everything. */
  ghost predicate Spent(t: TokenState, t': TokenState, owner: Address, spender: Address, amount: nat) {
    forall o: Address, s: Address ::
      t'.Allowance(o, s) == if o == owner && s == spender && t.Allowance(o, s) != MAX_UINT256
                            then t.Allowance(o, s) - amount else t.Allowance(o, s)
  }

  ghost predicate TokenLeaves(w: World, tx: Tx, c: TokenCall, w': World) {
    var (t, t') := (w.token, w'.token);
    && w' == w.(token := t')
    && match c
       case Transfer(to, amount) => Paid(t, t', tx.sender, to, amount) && t'.allowances == t.allowances
       case TransferFrom(from, to, amount) => Paid(t, t', from, to, amount) && Spent(t, t', from, tx.sender, amount)
       case Approve(spender, amount) =>
         && t' == t.(allowances := t'.allowances)
         && forall o: Address, s: Address ::
              t'.Allowance(o, s) == if o == tx.sender && s == spender then amount else t.Allowance(o, s)
       case ChangeTokenRole(op) => t' == t
       case _ => false
  }

  lemma TransferFromSpends(t: TokenState, spender: Address, from: Address, to: Address, amount: uint256)
    requires t.TransferFrom(spender, from, to, amount).Ok?
    ensures var t' := t.TransferFrom(spender, from, to, amount).value;
      Paid(t, t', from, to, amount) && Spent(t, t', from, spender, amount)
  {
    var t' := t.TransferFrom(spender, from, to, amount).value;
    forall o: Address, s: Address
      ensures t'.Allowance(o, s) == if o == from && s == spender && t.Allowance(o, s) != MAX_UINT256
                                    then t.Allowance(o, s) - amount else t.Allowance(o, s)
    {
      assert (o, s) == (from, spender) <==> o == from && s == spender;
    }
  }

  lemma ApproveEffect(t: TokenState, owner: Address, spender: Address, amount: uint256)
    requires t.Approve(owner, spender, amount).Ok?
    ensures var t' := t.Approve(owner, spender, amount).value;
      && t' == t.(allowances := t'.allowances)
      && forall o: Address, s: Address ::
           t'.Allowance(o, s) == if o == owner && s == spender then amount else t.Allowance(o, s)
  {
    var t' := t.Approve(owner, spender, amount).value;
    forall o: Address, s: Address
      ensures t'.Allowance(o, s) == if o == owner && s == spender then amount else t.Allowance(o, s)
    {
      assert (o, s) == (owner, spender) <==> o == owner && s == spender;
    }
  }

  lemma TokenEffect(w: World, tx: Tx, c: TokenCall)
    requires Sealed(w.token, w.at.vault) && StepToken(w, tx, c).Ok?
    ensures TokenLeaves(w, tx, c, StepToken(w, tx, c).value)
  {
    match c
    case TransferFrom(from, to, amount) => TransferFromSpends(w.token, tx.sender, from, to, amount);
    case Approve(spender, amount) => ApproveEffect(w.token, tx.sender, spender, amount);
    case _ => {}
  }

  // ---- Vault --------------------------------------------------------------------

  /** `b` owes `debt` since `now`, and `e` is on the log. */
  ghost predicate DebtSet(v: VaultState, v': VaultState, b: Address, debt: uint256, now: uint64, e: VaultEvent) {
    && b in v.positions
    && v' == v.(positions := v.positions[b := v.positions[b].(principalWad := debt, lastRiskSyncAt := now)],
                log := v.log + [e])
  }

  ghost predicate VaultLeaves(w: World, tx: Tx, c: VaultCall, w': World) {
    var (v, v', b) := (w.vault, w'.vault, tx.sender);
    match c
    case SetBorrowingPaused(paused) => w' == w.(vault := v.(borrowingPaused := paused))
    case OpenCreditLine(id) =>
      && b !in v.positions && b in v'.positions
      && w' == w.(vault := v.(positions := v.positions[b := v'.positions[b]]))
      && var p := v'.positions[b];
         p.reserveAccountId == id && p.principalWad == p.lastRiskSyncAt == 0 && p.openedAt == tx.env.now
    case Borrow(amount) => BorrowLeaves(w, tx, amount, w')
    case Repay(amount) =>
      && b in v.positions && amount <= v.Principal(b)
      && var (id, debt) := (v.positions[b].reserveAccountId, v.Principal(b) - amount);
      && DebtSet(v, v', b, debt, tx.env.now, Repaid(b, id, amount, debt))
      && Paid(w.token, w'.token, b, w.at.vault, amount) && Spent(w.token, w'.token, b, w.at.vault, amount)
      && w' == w.(vault := v', token := w'.token)
    case SyncRisk =>
      b in v.positions
      && w' == w.(vault := v.(positions := v.positions[b := v.positions[b].(lastRiskSyncAt := tx.env.now)]))
    case ChangeVaultRole(op) => w' == w.(vault := v.(roles := v'.roles)) && RolesChanged(v.roles, op, v'.roles)
    case _ => false
  }

  ghost predicate BorrowLeaves(w: World, tx: Tx, amount: uint256, w': World) {
    var (v, b) := (w.vault, tx.sender);
    && b in v.positions && v.positions[b].reserveAccountId in w.core.accounts
    && var (id, debt) := (v.positions[b].reserveAccountId, v.Principal(b) + amount);
    var limit := CreditLimit(w.risk.config, w.core.accounts[id].balanceDrops, tx.env.priceWad);
    && debt <= limit <= MAX_UINT256
    && DebtSet(v, w'.vault, b, debt, tx.env.now, Borrowed(b, id, amount, debt, limit))
    && Paid(w.token, w'.token, w.at.vault, b, amount) && w'.token.allowances == w.token.allowances
    && w' == w.(vault := w'.vault, token := w'.token)
  }

  lemma BorrowLeavesExactly(w: World, tx: Tx, amount: uint256)
    requires StepVault(w, tx, Borrow(amount)).Ok?
    ensures BorrowLeaves(w, tx, amount, StepVault(w, tx, Borrow(amount)).value)
  {}

  lemma RepayLeavesExactly(w: World, tx: Tx, amount: uint256)
    requires StepVault(w, tx, Repay(amount)).Ok?
    ensures VaultLeaves(w, tx, Repay(amount), StepVault(w, tx, Repay(amount)).value)
  {
    TransferFromSpends(w.token, w.at.vault, tx.sender, w.at.vault, amount);
  }

  lemma VaultEffect(w: World, tx: Tx, c: VaultCall)
    requires Wired(w) && tx.External(w.at) && StepVault(w, tx, c).Ok?
    ensures VaultLeaves(w, tx, c, StepVault(w, tx, c).value)
  {
    assert w.at.token in w.at.All() && w.at.repaymentRouter in w.at.All();
    match c
    case Borrow(amount) => BorrowLeavesExactly(w, tx, amount);
    case Repay(amount) => RepayLeavesExactly(w, tx, amount);
    case ChangeVaultRole(op) => RoleEffect(w.vault.roles, tx.sender, op);
    case _ => {}
  }

  // ---- Router -------------------------------------------------------------------

  ghost predicate RouterLeaves(w: World, tx: Tx, c: RouterCall, w': World) {
    var (ro, ro', v, b) := (w.router, w'.router, w.vault, tx.sender);
    match c
    case CreateRepaymentIntent(account, wad, memo, expiresAt) =>
      CreationLeaves(w, tx, account, wad, memo, expiresAt, w')
    case SettleRepaymentWithProof(k, p) =>
      && k in ro.intents && p.receivedAmount >= 0
      && var i := ro.intents[k];
      && i.borrower in v.positions && i.repaymentWad <= v.Pending(i.borrower)
      && i.repaymentWad <= v.Principal(i.borrower)
      && ro' == ro.(intents := ro.intents[k := i.(status := Router.Settled, settledProofId := p.Id())],
                    log := ro.log + [Router.Settlement(k, p.Id(), p.receivedAmount, i.repaymentWad)])
      && var (id, debt) := (v.positions[i.borrower].reserveAccountId, v.Principal(i.borrower) - i.repaymentWad);
      && DebtSet(v.(pending := v.pending[i.borrower := v.Pending(i.borrower) - i.repaymentWad]), w'.vault, i.borrower,
                 debt, tx.env.now, XrpRepaid(i.borrower, id, i.repaymentWad, debt))
      && w'.registry == w.registry.(consumed := w.registry.consumed + {p.Id()},
           log := w.registry.log + [ProofRegistry.ProofConsumed(p.Id(), w.at.repaymentRouter)])
      && w' == w.(router := ro', vault := w'.vault, registry := w'.registry)
    case CancelRepaymentIntent(k) => Closed(w, k, Router.Cancelled, w')
    case ExpireRepaymentIntent(k) => Closed(w, k, Router.Expired, w')
  }

  /** The intent stores the call's own terms, asks for the least drops worth the repayment, and is reserved. */
  ghost predicate CreationLeaves(w: World, tx: Tx, account: Bytes32, wad: uint256, memo: Bytes32, expiresAt: uint64,
                                 w': World)
  {
    var (ro, ro', v, b) := (w.router, w'.router, w.vault, tx.sender);
    var nonce := Lookup(ro.nextNonce, b);
    var k := IntentId(b, account, memo, nonce);
    && nonce < MAX_UINT256 && v.Pending(b) + wad <= MAX_UINT256 && k in ro'.intents
    && ro' == ro.(nextNonce := ro.nextNonce[b := nonce + 1], intents := ro.intents[k := ro'.intents[k]],
                  quotedPrice := ro.quotedPrice[k := tx.env.priceWad])
    && var i := ro'.intents[k];
    && i.borrower == b && i.reserveAccountId == account && i.memoHash == memo && i.settledProofId == ZERO_BYTES32
    && i.repaymentWad == wad && i.expiresAt == expiresAt && i.status == Router.Open
    && (forall drops: nat :: i.expectedAmountDrops <= drops <==> wad * 1_000_000 <= drops * tx.env.priceWad)
    && w' == w.(router := ro', vault := v.(pending := v.pending[b := v.Pending(b) + wad]))
  }

  ghost predicate Closed(w: World, k: Bytes32, status: Router.RepaymentStatus, w': World) {
    && k in w.router.intents
    && var i := w.router.intents[k];
    && i.repaymentWad <= w.vault.Pending(i.borrower)
    && w' == w.(router := w.router.(intents := w.router.intents[k := i.(status := status)]),
                vault := w.vault.(pending := w.vault.pending[i.borrower :=
                                                               w.vault.Pending(i.borrower) - i.repaymentWad]))
  }

  lemma CreationEffect(w: World, tx: Tx, account: Bytes32, wad: uint256, memo: Bytes32, expiresAt: uint64)
    requires StepRouter(w, tx, CreateRepaymentIntent(account, wad, memo, expiresAt)).Ok?
    ensures CreationLeaves(w, tx, account, wad, memo, expiresAt,
                           StepRouter(w, tx, CreateRepaymentIntent(account, wad, memo, expiresAt)).value)
  {
    forall drops: nat
      ensures CeilDiv(wad * 1_000_000, tx.env.priceWad) <= drops <==> wad * 1_000_000 <= drops * tx.env.priceWad
    {
      CeilIff(wad * 1_000_000, tx.env.priceWad, drops);
    }
  }

  lemma RouterCallEffect(w: World, tx: Tx, c: RouterCall)
    requires StepRouter(w, tx, c).Ok?
    ensures RouterLeaves(w, tx, c, StepRouter(w, tx, c).value)
  {
    match c
    case CreateRepaymentIntent(account, wad, memo, expiresAt) => CreationEffect(w, tx, account, wad, memo, expiresAt);
    case _ => {}
  }

  // ---- Every transaction --------------------------------------------------------

  ghost predicate Leaves(w: World, tx: Tx, w': World) {
    match tx.call
    case ToCore(c) => CoreLeaves(w, tx, c, w')
    case ToRegistry(c) => RegistryLeaves(w, tx, c, w')
    case ToInvoices(c) => InvoicesLeave(w, tx, c, w')
    case ToRisk(next) => next.Valid() && w' == w.(risk := w'.risk) && w'.risk.riskAdmin == w.risk.riskAdmin
      && w'.risk.version == w.risk.version + 1 && w'.risk.config == next
    case ToVault(c) => VaultLeaves(w, tx, c, w')
    case ToToken(c) => TokenLeaves(w, tx, c, w')
    case ToRouter(c) => RouterLeaves(w, tx, c, w')
  }

  lemma EveryEffect(w: World, tx: Tx)
    requires Wired(w) && Sealed(w.token, w.at.vault) && tx.External(w.at)
    ensures if Step(w, tx).Ok? then Leaves(w, tx, Next(w, tx)) else Next(w, tx) == w
  {
    assert w.at.core in w.at.All();
    if Step(w, tx).Ok? {
      match tx.call
      case ToCore(c) => CoreEffect(w, tx, c);
      case ToRegistry(c) => RegistryEffect(w, tx, c);
      case ToInvoices(c) => InvoicesEffect(w, tx, c);
      case ToRisk(next) => {}
      case ToVault(c) => VaultEffect(w, tx, c);
      case ToToken(c) => TokenEffect(w, tx, c);
      case ToRouter(c) => RouterCallEffect(w, tx, c);
    }
  }

  // ---- From creation to settlement ----------------------------------------------

  /** A verified payment by `b`, in time and with the memo, of the least drops worth `wad` at `price`. */
  ghost predicate PaysIntent(w: World, pay: Tx, p: Payment, b: Address, wad: nat, memo: Bytes32, expiresAt: uint64,
                             price: uint256)
  {
    && pay.sender == b == p.proofOwner && pay.env.proofValid && p.sourceId == TEST_XRP && p.status == 0
    && p.receivingAddressHash == w.router.collectionAddressHash && MemoHash(p.firstMemoData) == memo
    && p.blockTimestamp <= expiresAt && p.receivedAmount >= 0
    && (forall drops: nat :: p.receivedAmount <= drops <==> wad * 1_000_000 <= drops * price)
    && p.Id() !in w.registry.consumed && w.at.repaymentRouter in w.registry.roles.operators
  }

  lemma SameQuote(a: nat, b: nat, wad: nat, price: nat)
    requires forall drops: nat :: a <= drops <==> wad * 1_000_000 <= drops * price
    requires forall drops: nat :: b <= drops <==> wad * 1_000_000 <= drops * price
    requires wad > 0
    ensures a == b
  {
    assert a <= a <==> wad * 1_000_000 <= a * price;
    assert b <= b <==> wad * 1_000_000 <= b * price;
  }

  lemma PaidIntentSettles(w: World, pay: Tx, k: Bytes32, p: Payment, price: uint256)
    requires Good(w) && k in w.router.intents && w.router.intents[k].status == Router.Open
    requires var i := w.router.intents[k];
      && PaysIntent(w, pay, p, i.borrower, i.repaymentWad, i.memoHash, i.expiresAt, price)
      && forall drops: nat :: i.expectedAmountDrops <= drops <==> i.repaymentWad * 1_000_000 <= drops * price
    ensures var (i, settled) := (w.router.intents[k], StepRouter(w, pay, SettleRepaymentWithProof(k, p)));
      settled.Ok? && settled.value.vault.Principal(i.borrower) + i.repaymentWad == w.vault.Principal(i.borrower)
  {
    var i := w.router.intents[k];
    SameQuote(i.expectedAmountDrops, p.receivedAmount, i.repaymentWad, price);
    SettlementAcceptedExactly(w, pay, k, p);
    RouterCallEffect(w, pay, SettleRepaymentWithProof(k, p));
  }

  /** Whatever happens after its creation, an intent keeps the terms of the call. */
  lemma CreatedIntentStays(w: World, tx: Tx, account: Bytes32, wad: uint256, memo: Bytes32, expiresAt: uint64,
                           later: seq<Tx>) returns (k: Bytes32, w': World)
    requires Good(w) && tx.External(w.at) && tx.call == ToRouter(CreateRepaymentIntent(account, wad, memo, expiresAt))
    requires Step(w, tx).Ok? && AllExternal(w.at, later)
    ensures w' == Run(Next(w, tx), later)
    ensures k == IntentId(tx.sender, account, memo, Lookup(w.router.nextNonce, tx.sender))
    ensures Good(w') && k in w'.router.intents
      && var i := w'.router.intents[k];
      && i.borrower == tx.sender && i.reserveAccountId == account && i.memoHash == memo && i.repaymentWad == wad > 0
      && i.expiresAt == expiresAt
      && forall drops: nat :: i.expectedAmountDrops <= drops <==> wad * 1_000_000 <= drops * tx.env.priceWad
  {
    w' := Run(Next(w, tx), later);
    k := IntentId(tx.sender, account, memo, Lookup(w.router.nextNonce, tx.sender));
    CreationEffect(w, tx, account, wad, memo, expiresAt);
    GoodStep(w, tx);
    RunGood(Next(w, tx), later);
    TermsNeverChange(Next(w, tx), later);
  }

  /** An intent created with `expiresAt` can be settled, as long as it is OPEN and whatever has happened since, by a
      payment up to that time that fits the call that created it; the settlement clears exactly its amount. */
  lemma CreatedIntentSettles(w: World, tx: Tx, account: Bytes32, wad: uint256, memo: Bytes32, expiresAt: uint64,
                             later: seq<Tx>, pay: Tx, p: Payment) returns (k: Bytes32, w': World)
    requires Good(w) && tx.External(w.at) && tx.call == ToRouter(CreateRepaymentIntent(account, wad, memo, expiresAt))
    requires Step(w, tx).Ok? && AllExternal(w.at, later)
    requires PaysIntent(Run(Next(w, tx), later), pay, p, tx.sender, wad, memo, expiresAt, tx.env.priceWad)
    ensures w' == Run(Next(w, tx), later)
    ensures k == IntentId(tx.sender, account, memo, Lookup(w.router.nextNonce, tx.sender))
    ensures k in w'.router.intents
    ensures var settled := StepRouter(w', pay, SettleRepaymentWithProof(k, p));
      w'.router.intents[k].status == Router.Open ==>
        settled.Ok? && settled.value.vault.Principal(tx.sender) + wad == w'.vault.Principal(tx.sender)
  {
    k, w' := CreatedIntentStays(w, tx, account, wad, memo, expiresAt, later);
    if w'.router.intents[k].status == Router.Open { PaidIntentSettles(w', pay, k, p, tx.env.priceWad); }
  }
}
