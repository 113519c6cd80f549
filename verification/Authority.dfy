/** Who can change what, and exactly when a closing or a proof is accepted, in any reachable state. */
module Authority {
  import opened Evm
  import opened Protocol
  import opened Wiring
  import opened Reservations
  import opened Payments
  import opened Ledger
  import opened Lifecycle
  import opened Safety
  import opened CreditLines
  import opened CreditMath
  import opened CreditVault
  import Core = ReserveFlowCore
  import Router = XrpRepaymentRouter
  import Inv = InvoiceRegistry

  // ---- Closing ------------------------------------------------------------------

  /** An intent closes as SETTLED with a verified payment of exactly the quoted drops made in time, as CANCELLED
      by its borrower, or as EXPIRED after its deadline. */
  lemma IntentClosing(w: World, tx: Tx, k: Bytes32)
    requires Wired(w) && IntentsFresh(w) && k in w.router.intents
    requires Next(w, tx).router.intents[k] != w.router.intents[k]
    ensures var (i, i') := (w.router.intents[k], Next(w, tx).router.intents[k]);
      && i.status == Router.Open && tx.call.ToRouter?
      && (i'.status == Router.Cancelled ==> tx.sender == i.borrower && tx.call.router == CancelRepaymentIntent(k))
      && (i'.status == Router.Expired ==> tx.env.now > i.expiresAt && tx.call.router == ExpireRepaymentIntent(k))
      && (i'.status == Router.Settled ==>
            && tx.call.router.SettleRepaymentWithProof? && tx.call.router.intentId == k && tx.sender == i.borrower
              && tx.env.proofValid
            && var p := tx.call.router.p;
            && p.receivedAmount == i.expectedAmountDrops && p.blockTimestamp <= i.expiresAt
              && MemoHash(p.firstMemoData) == i.memoHash
            && p.receivingAddressHash == w.router.collectionAddressHash && i'.settledProofId == p.Id())
      && i'.status != Router.Open
  {
    if Step(w, tx).Ok? {
      match tx.call
      case ToCore(c) => CoreFrame(w, tx, c);
      case ToVault(c) => VaultFrame(w, tx, c);
      case ToRouter(c) => RouterEffect(w, tx, c);
      case _ => {}
    }
  }

  /** An invoice closes as SETTLED with a payment that meets its terms, as CANCELLED by its borrower, or as
      EXPIRED after it was due. */
  lemma InvoiceClosing(w: World, tx: Tx, k: Bytes32)
    requires Wired(w) && InvoicesFresh(w.invoices) && tx.External(w.at)
    requires k in w.invoices.invoices && k in Next(w, tx).invoices.invoices
    requires Next(w, tx).invoices.invoices[k] != w.invoices.invoices[k]
    ensures var (i, i') := (w.invoices.invoices[k], Next(w, tx).invoices.invoices[k]);
      && i.status == Inv.Open
      && (i'.status == Inv.Cancelled ==> tx.sender == i.borrower)
      && (i'.status == Inv.Expired ==> tx.env.now > i.dueAt)
      && (i'.status == Inv.Settled ==>
            && tx.call.ToCore? && tx.call.core.SubmitInvoicePaymentProof? && tx.call.core.invoiceId == k
              && tx.env.proofValid
            && var p := tx.call.core.p;
            && p.sourceAddressHash == i.payerAddressHash
              && i.minimumAmountDrops <= p.receivedAmount == i'.settledAmountDrops
            && p.blockTimestamp <= i.dueAt && MemoHash(p.firstMemoData) == i.memoHash && i'.settledProofId == p.Id())
  {
    assert tx.sender != w.at.core by { assert w.at.core in w.at.All(); }
    if Step(w, tx).Ok? {
      match tx.call
      case ToCore(c) =>
        CoreFrame(w, tx, c);
        if c.SubmitInvoicePaymentProof? { InvoiceSubmissionSettles(w, tx, c); SubmissionEffect(w, tx, c); }
      case ToInvoices(c) => InvoiceCallCloses(w, tx, c, k);
      case ToVault(c) => VaultFrame(w, tx, c);
      case ToRouter(c) => RouterFrame(w, tx, c);
      case _ => {}
    }
  }

  lemma InvoiceCallCloses(w: World, tx: Tx, c: InvoiceCall, k: Bytes32)
    requires Wired(w) && InvoicesFresh(w.invoices) && tx.sender != w.at.core && StepInvoices(w, tx, c).Ok?
    requires k in w.invoices.invoices && StepInvoices(w, tx, c).value.invoices.invoices[k] != w.invoices.invoices[k]
    ensures var (i, i') := (w.invoices.invoices[k], StepInvoices(w, tx, c).value.invoices.invoices[k]);
      && i.status == Inv.Open
      && ((i'.status == Inv.Cancelled && tx.sender == i.borrower) || (i'.status == Inv.Expired && tx.env.now > i.dueAt))
  {}

  // ---- Acceptance ---------------------------------------------------------------

  /** The payment settles OPEN intent `k` on its terms, and nobody has spent it. */
  predicate SettlementFits(w: World, tx: Tx, k: Bytes32, p: Payment) {
    && k in w.router.intents
    && var i := w.router.intents[k];
    && i.status == Router.Open && tx.sender == i.borrower == p.proofOwner && tx.env.proofValid
    && p.sourceId == TEST_XRP && p.status == 0 && p.blockTimestamp <= i.expiresAt
    && p.receivingAddressHash == w.router.collectionAddressHash && MemoHash(p.firstMemoData) == i.memoHash
    && p.receivedAmount == i.expectedAmountDrops
    && p.Id() !in w.registry.consumed && w.at.repaymentRouter in w.registry.roles.operators
  }

  /** In a reachable state the settlement of an intent depends on the intent and the proof alone: neither the
      reservation, nor the principal, nor the pause flag can stand in the way. */
  lemma SettlementAcceptedExactly(w: World, tx: Tx, k: Bytes32, p: Payment)
    requires Good(w)
    ensures StepRouter(w, tx, SettleRepaymentWithProof(k, p)).Ok? <==> SettlementFits(w, tx, k, p)
  {
    if k in w.router.intents && w.router.intents[k].status == Router.Open {
      QuotePositive(w, k);
      assert ReservedFor(w.vault, w.router.intents, w.router.intents[k].borrower);
      ClosingNeverReverts(w, k, tx.env.now);
    }
  }

  lemma QuotePositive(w: World, k: Bytes32)
    requires IntentsFresh(w) && QuotesHeld(w.router) && k in w.router.intents
    ensures w.router.intents[k].expectedAmountDrops > 0
  {
    var i := w.router.intents[k];
    QuoteAdjoint(i.repaymentWad, w.router.quotedPrice[k], 0);
  }

  /** The payment moves the ACTIVE account `id` of its sender, and nobody has spent it. */
  predicate PaymentFits(w: World, tx: Tx, id: Bytes32, p: Payment) {
    && id in w.core.accounts
    && var a := w.core.accounts[id];
    var incoming := p.receivingAddressHash == a.externalAddressHash;
    var amount := if incoming then p.receivedAmount else p.spentAmount;
    && a.status == Core.Active && tx.sender == a.borrower == p.proofOwner && tx.env.proofValid
    && p.sourceId == TEST_XRP && p.status == 0
    && p.Id() !in w.registry.consumed && w.at.core in w.registry.roles.operators
    && p.blockNumber > a.lastExternalLedger
    && incoming != (p.sourceAddressHash == a.externalAddressHash)
    && amount > 0
    && (if incoming then a.balanceDrops + amount <= MAX_UINT256 else amount <= a.balanceDrops)
  }

  /** In a reachable state the core's own `usedProofs` never decides: a reserve payment is accepted exactly when
      the global registry has not seen it and it fits the account. */
  lemma PaymentAcceptedExactly(w: World, tx: Tx, id: Bytes32, p: Payment)
    requires Good(w)
    ensures StepCore(w, tx, SubmitXrpPaymentProof(id, p)).Ok? <==> PaymentFits(w, tx, id, p)
  {
    assert w.at.proofRegistry != ZERO_ADDRESS by { assert w.at.proofRegistry in w.at.All(); }
  }

  /** The payment is received by the ACTIVE account `id` of its sender and pays OPEN invoice `k` on its terms. */
  predicate InvoicePaymentFits(w: World, tx: Tx, id: Bytes32, k: Bytes32, p: Payment) {
    && id in w.core.accounts && k in w.invoices.invoices
    && var (a, i) := (w.core.accounts[id], w.invoices.invoices[k]);
    && a.status == Core.Active && tx.sender == a.borrower == p.proofOwner && tx.env.proofValid
    && p.sourceId == TEST_XRP && p.status == 0
    && p.receivingAddressHash == a.externalAddressHash && p.blockNumber > a.lastExternalLedger
    && p.Id() !in w.registry.consumed && w.at.core in w.registry.roles.operators
    && i.status == Inv.Open && p.blockTimestamp <= i.dueAt && p.sourceAddressHash == i.payerAddressHash
    && MemoHash(p.firstMemoData) == i.memoHash
    && 0 < p.receivedAmount && i.minimumAmountDrops <= p.receivedAmount
    && a.balanceDrops + p.receivedAmount <= MAX_UINT256
  }

  /** The call that crosses core, proof registry and invoice registry is accepted exactly when the payment fits
      the account, the invoice is open and the payment meets its terms, and nobody has spent the proof. */
  lemma InvoicePaymentAcceptedExactly(w: World, tx: Tx, id: Bytes32, k: Bytes32, p: Payment)
    requires Good(w)
    ensures StepCore(w, tx, SubmitInvoicePaymentProof(id, k, p)).Ok? <==> InvoicePaymentFits(w, tx, id, k, p)
  {
    assert w.at.proofRegistry != ZERO_ADDRESS && w.at.invoiceRegistry != ZERO_ADDRESS by {
      assert w.at.proofRegistry in w.at.All() && w.at.invoiceRegistry in w.at.All();
    }
  }

  /** A settled invoice agrees with the account that received the payment exactly when it named that account, or
      its borrower, before the call: nothing else enforces it. */
  lemma InvoiceNamesAccountExactly(w: World, tx: Tx, id: Bytes32, k: Bytes32, p: Payment)
    requires StepCore(w, tx, SubmitInvoicePaymentProof(id, k, p)).Ok? && k in w.invoices.invoices
    ensures var w' := StepCore(w, tx, SubmitInvoicePaymentProof(id, k, p)).value;
      && w.core.log < w'.core.log && k in w'.invoices.invoices && id in w'.core.accounts
      && var (i, e) := (w'.invoices.invoices[k], w'.core.log[|w.core.log|]);
      && i.status == Inv.Settled && PaidBy(i, e) && e.accountId == id
      && (i.reserveAccountId == e.accountId <==> w.invoices.invoices[k].reserveAccountId == id)
      && (i.borrower == w'.core.accounts[id].borrower <==> w.invoices.invoices[k].borrower == tx.sender)
  {
    SubmissionEffect(w, tx, SubmitInvoicePaymentProof(id, k, p));
    InvoiceSubmissionSettles(w, tx, SubmitInvoicePaymentProof(id, k, p));
  }

  // ---- Administration -----------------------------------------------------------

  /** A reserve account changes status only by an act of an administrator of the core, PENDING_APPROVAL to ACTIVE
      or between ACTIVE and FROZEN. STALE is never entered. */
  lemma AccountStatusChange(w: World, tx: Tx, id: Bytes32)
    requires Wired(w) && AccountsHashed(w.core) && id in w.core.accounts && id in Next(w, tx).core.accounts
    requires Next(w, tx).core.accounts[id].status != w.core.accounts[id].status
    ensures var (s, s') := (w.core.accounts[id].status, Next(w, tx).core.accounts[id].status);
      && tx.sender in w.core.roles.operators && tx.call.ToCore?
      && match tx.call.core
         case ApproveReserveAccount(a) => a == id && s == Core.PendingApproval && s' == Core.Active
         case SetReserveAccountFrozen(a, true) => a == id && s == Core.Active && s' == Core.Frozen
         case SetReserveAccountFrozen(a, false) => a == id && s == Core.Frozen && s' == Core.Active
         case _ => false
  {
    if tx.call.ToCore? {
      if Step(w, tx).Ok? { CoreCallChangesStatus(w, tx, tx.call.core, id); }
    } else {
      AccountsStay(w, tx);
    }
  }

  lemma CoreCallChangesStatus(w: World, tx: Tx, c: CoreCall, id: Bytes32)
    requires StepCore(w, tx, c).Ok? && id in w.core.accounts && id in StepCore(w, tx, c).value.core.accounts
    requires StepCore(w, tx, c).value.core.accounts[id].status != w.core.accounts[id].status
    ensures var (s, s') := (w.core.accounts[id].status, StepCore(w, tx, c).value.core.accounts[id].status);
      && tx.sender in w.core.roles.operators
      && match c
         case ApproveReserveAccount(a) => a == id && s == Core.PendingApproval && s' == Core.Active
         case SetReserveAccountFrozen(a, true) => a == id && s == Core.Active && s' == Core.Frozen
         case SetReserveAccountFrozen(a, false) => a == id && s == Core.Frozen && s' == Core.Active
         case _ => false
  {
    if IsSubmission(c) { SubmissionEffect(w, tx, c); }
  }
}
