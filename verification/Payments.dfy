/** What an accepted payment does, and that it is accepted once. */
module Payments {
  import opened Evm
  import opened ProofRegistry
  import opened InvoiceRegistry
  import opened Protocol
  import opened Wiring
  import Core = ReserveFlowCore
  import Router = XrpRepaymentRouter
  import Reservations

  // ---- The two submissions to the core ------------------------------------------

  predicate IsSubmission(c: CoreCall) { c.SubmitXrpPaymentProof? || c.SubmitInvoicePaymentProof? }

  /** `e` reports `p` faithfully for an account that stood at `a`. */
  ghost predicate Reports(e: Core.ReserveUpdate, p: Payment, a: Core.ReserveAccount) {
    && e.proofId == p.Id() && p.sourceId == TEST_XRP && p.proofOwner == a.borrower
    && e.externalLedger == p.blockNumber && e.attestedAt == p.blockTimestamp
    && a.lastExternalLedger < e.externalLedger
    && e.amountDrops > 0
    && (e.incoming ==> p.receivingAddressHash == a.externalAddressHash && e.amountDrops == p.receivedAmount)
    && (e.incoming ==> e.balanceDrops == a.balanceDrops + e.amountDrops)
    && (!e.incoming ==> p.sourceAddressHash == a.externalAddressHash && e.amountDrops == p.spentAmount)
    && (!e.incoming ==> e.balanceDrops == a.balanceDrops - e.amountDrops)
  }

  lemma SubmissionEffect(w: World, tx: Tx, c: CoreCall)
    requires IsSubmission(c) && StepCore(w, tx, c).Ok?
    ensures var w' := StepCore(w, tx, c).value;
      && w.core.log < w'.core.log && c.id in w.core.accounts
      && var (a, e) := (w.core.accounts[c.id], w'.core.log[|w.core.log|]);
      && w'.core == w.core.Recorded(c.id, c.p, e.incoming, e.amountDrops, e.balanceDrops)
      && Reports(e, c.p, a) && a.status == Core.Active && tx.sender == a.borrower && tx.env.proofValid
  {}

  lemma SubmissionSpends(w: World, tx: Tx, c: CoreCall)
    requires IsSubmission(c) && StepCore(w, tx, c).Ok?
    ensures var w' := StepCore(w, tx, c).value;
      && c.p.Id() !in w.registry.consumed
      && w'.registry == w.registry.(consumed := w.registry.consumed + {c.p.Id()},
                                    log := w.registry.log + [ProofConsumed(c.p.Id(), w.at.core)])
  {}

  lemma InvoiceSubmissionSettles(w: World, tx: Tx, c: CoreCall)
    requires c.SubmitInvoicePaymentProof? && StepCore(w, tx, c).Ok?
    ensures var w' := StepCore(w, tx, c).value;
      && c.invoiceId in w.invoices.invoices && c.p.receivedAmount > 0
      && var i := w.invoices.invoices[c.invoiceId];
      && i.status == Open && i.minimumAmountDrops <= c.p.receivedAmount && c.p.blockTimestamp <= i.dueAt
      && i.payerAddressHash == c.p.sourceAddressHash && i.memoHash == MemoHash(c.p.firstMemoData)
      && w'.invoices == w.invoices.(invoices := w.invoices.invoices[c.invoiceId :=
           i.(status := Settled, settledProofId := c.p.Id(), settledAmountDrops := c.p.receivedAmount,
              settledAt := c.p.blockTimestamp)])
      && w'.core.log[|w.core.log|].incoming
  {}

  lemma SettlementSpends(w: World, tx: Tx, c: RouterCall)
    requires c.SettleRepaymentWithProof? && StepRouter(w, tx, c).Ok?
    ensures var w' := StepRouter(w, tx, c).value;
      && c.intentId in w.router.intents && tx.env.proofValid && c.p.sourceId == TEST_XRP && c.p.receivedAmount >= 0
      && c.p.Id() !in w.registry.consumed
      && w'.registry == w.registry.(consumed := w.registry.consumed + {c.p.Id()},
                                    log := w.registry.log + [ProofConsumed(c.p.Id(), w.at.repaymentRouter)])
      && c.p.receivedAmount == w.router.intents[c.intentId].expectedAmountDrops
      && w'.router.log == w.router.log + [Router.Settlement(c.intentId, c.p.Id(), c.p.receivedAmount,
                                                            w.router.intents[c.intentId].repaymentWad)]
  {}

  // ---- Exactly once -------------------------------------------------------------

  ghost function CoreIds(log: seq<Core.ReserveUpdate>): set<Bytes32> { set e | e in log :: e.proofId }
  ghost function RouterIds(log: seq<Router.Settlement>): set<Bytes32> { set e | e in log :: e.proofId }

  /** Proofs that an account other than the core and the router has consumed directly. */
  ghost function OutsideIds(log: seq<ProofConsumed>, at: Addresses): set<Bytes32> {
    set e | e in log && e.consumer != at.core && e.consumer != at.repaymentRouter :: e.proofId
  }

  ghost predicate SpentOnce(w: World) {
    var (core, router, outside) := (CoreIds(w.core.log), RouterIds(w.router.log), OutsideIds(w.registry.log, w.at));
    && w.core.usedProofs == core
    && w.registry.consumed == core + router + outside
    && core !! router !! outside
    && (forall i, j | 0 <= i < j < |w.core.log| :: w.core.log[i].proofId != w.core.log[j].proofId)
    && (forall i, j | 0 <= i < j < |w.router.log| :: w.router.log[i].proofId != w.router.log[j].proofId)
    && forall id: Bytes32 | id in core + router :: id.ProofId? && id.source == TEST_XRP
  }

  lemma CoreKeepsSpentOnce(w: World, tx: Tx, c: CoreCall)
    requires Wired(w) && SpentOnce(w) && StepCore(w, tx, c).Ok?
    ensures SpentOnce(StepCore(w, tx, c).value)
  {
    CoreFrame(w, tx, c);
    if IsSubmission(c) {
      SubmissionEffect(w, tx, c);
      SubmissionSpends(w, tx, c);
      var w' := StepCore(w, tx, c).value;
      assert CoreIds(w'.core.log) == CoreIds(w.core.log) + {c.p.Id()};
      assert OutsideIds(w'.registry.log, w.at) == OutsideIds(w.registry.log, w.at);
    }
  }

  lemma RegistryKeepsSpentOnce(w: World, tx: Tx, c: RegistryCall)
    requires SpentOnce(w) && tx.sender != w.at.core && tx.sender != w.at.repaymentRouter && StepRegistry(w, tx, c).Ok?
    ensures SpentOnce(StepRegistry(w, tx, c).value)
  {
    var w' := StepRegistry(w, tx, c).value;
    if c.Consume? {
      assert OutsideIds(w'.registry.log, w.at) == OutsideIds(w.registry.log, w.at) + {c.proofId};
    }
  }

  lemma RouterKeepsSpentOnce(w: World, tx: Tx, c: RouterCall)
    requires Wired(w) && SpentOnce(w) && StepRouter(w, tx, c).Ok?
    ensures SpentOnce(StepRouter(w, tx, c).value)
  {
    RouterFrame(w, tx, c);
    if c.SettleRepaymentWithProof? {
      SettlementSpends(w, tx, c);
      var w' := StepRouter(w, tx, c).value;
      assert RouterIds(w'.router.log) == RouterIds(w.router.log) + {c.p.Id()};
      assert OutsideIds(w'.registry.log, w.at) == OutsideIds(w.registry.log, w.at);
    }
  }

  lemma SpentOnceStep(w: World, tx: Tx)
    requires Wired(w) && SpentOnce(w) && tx.External(w.at)
    ensures SpentOnce(Next(w, tx))
  {
    assert w.at.core in w.at.All() && w.at.repaymentRouter in w.at.All();
    if Step(w, tx).Ok? {
      match tx.call
      case ToCore(c) => CoreKeepsSpentOnce(w, tx, c);
      case ToRegistry(c) => RegistryKeepsSpentOnce(w, tx, c);
      case ToVault(c) => VaultFrame(w, tx, c);
      case ToRouter(c) => RouterKeepsSpentOnce(w, tx, c);
      case _ => {}
    }
  }
}
