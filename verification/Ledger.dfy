/** The reserve ledger of an account is the replay of the payments accepted for it. */
module Ledger {
  import opened Evm
  import opened InvoiceRegistry
  import opened Protocol
  import opened Wiring
  import opened Payments
  import Core = ReserveFlowCore

  datatype Replayed = Inconsistent | Marks(balance: nat, lastLedger: nat, lastAttested: nat)

  /** Replays the events of one account. A replay is inconsistent as soon as an event is out of
      ledger order, withdraws more than there is, or reports another balance than the replay's. */
  function Replay(log: seq<Core.ReserveUpdate>, id: Bytes32): Replayed {
    if log == [] then Marks(0, 0, 0) else
      var (before, e) := (Replay(log[..|log| - 1], id), log[|log| - 1]);
      if before.Inconsistent? || e.accountId != id then before
      else if e.externalLedger <= before.lastLedger then Inconsistent
      else if !e.incoming && e.amountDrops > before.balance then Inconsistent
      else
        var balance := if e.incoming then before.balance + e.amountDrops else before.balance - e.amountDrops;
        if e.balanceDrops != balance then Inconsistent else Marks(balance, e.externalLedger, e.attestedAt)
  }

  function MarksOf(c: Core.CoreState, id: Bytes32): Replayed {
    if id in c.accounts
    then Marks(c.accounts[id].balanceDrops, c.accounts[id].lastExternalLedger, c.accounts[id].lastAttestedAt)
    else Marks(0, 0, 0)
  }

  ghost predicate LedgerReplayed(c: Core.CoreState) {
    forall id: Bytes32 :: Replay(c.log, id) == MarksOf(c, id)
  }

  lemma CoreKeepsReplay(w: World, tx: Tx, c: CoreCall)
    requires Wired(w) && LedgerReplayed(w.core) && StepCore(w, tx, c).Ok?
    ensures LedgerReplayed(StepCore(w, tx, c).value.core)
  {
    var core' := StepCore(w, tx, c).value.core;
    if IsSubmission(c) {
      SubmissionEffect(w, tx, c);
      assert core'.log[..|core'.log| - 1] == w.core.log;
      assert Replay(w.core.log, c.id) == MarksOf(w.core, c.id);
    } else {
      OtherCallsKeepMarks(w, tx, c);
    }
  }

  /** Registering, approving, freezing and unfreezing never move a balance or a ledger mark. */
  lemma OtherCallsKeepMarks(w: World, tx: Tx, c: CoreCall)
    requires !IsSubmission(c) && StepCore(w, tx, c).Ok?
    ensures var core' := StepCore(w, tx, c).value.core;
      core'.log == w.core.log && forall id: Bytes32 :: MarksOf(core', id) == MarksOf(w.core, id)
  {}

  lemma LedgerStep(w: World, tx: Tx)
    requires Wired(w) && LedgerReplayed(w.core)
    ensures LedgerReplayed(Next(w, tx).core)
  {
    if Step(w, tx).Ok? {
      match tx.call
      case ToCore(c) => CoreKeepsReplay(w, tx, c);
      case ToVault(c) => VaultFrame(w, tx, c);
      case ToRouter(c) => RouterFrame(w, tx, c);
      case _ => {}
    }
  }

  // ---- Consequences of a consistent replay --------------------------------------

  /** A prefix of a consistent log is consistent: at no point was the balance negative. */
  lemma {:induction false} PrefixConsistent(log: seq<Core.ReserveUpdate>, id: Bytes32, n: nat)
    requires n <= |log| && Replay(log, id) != Inconsistent
    ensures Replay(log[..n], id) != Inconsistent
  {
    if n < |log| {
      PrefixConsistent(log[..|log| - 1], id, n);
      assert log[..|log| - 1][..n] == log[..n];
    } else {
      assert log[..n] == log;
    }
  }

  /** The ledger mark of a replay is no lower than any replayed block number. */
  lemma {:induction false} ReplayReaches(log: seq<Core.ReserveUpdate>, id: Bytes32, i: nat)
    requires i < |log| && log[i].accountId == id && Replay(log, id) != Inconsistent
    ensures log[i].externalLedger <= Replay(log, id).lastLedger
  {
    var init := log[..|log| - 1];
    if i < |init| {
      ReplayReaches(init, id, i);
    }
  }

  lemma BlockNumbersIncrease(log: seq<Core.ReserveUpdate>, id: Bytes32, i: nat, j: nat)
    requires i < j < |log| && log[i].accountId == log[j].accountId == id && Replay(log, id) != Inconsistent
    ensures log[i].externalLedger < log[j].externalLedger
  {
    PrefixConsistent(log, id, j + 1);
    assert log[..j + 1][..j] == log[..j];
    ReplayReaches(log[..j], id, i);
  }

  /** Non-zero marks come from an event: the last one of the account. */
  lemma {:induction false} LastEvent(log: seq<Core.ReserveUpdate>, id: Bytes32) returns (i: nat)
    requires Replay(log, id) != Inconsistent && Replay(log, id) != Marks(0, 0, 0)
    ensures i < |log| && log[i].accountId == id
    ensures Replay(log, id) == Marks(log[i].balanceDrops, log[i].externalLedger, log[i].attestedAt)
    ensures forall j | i < j < |log| :: log[j].accountId != id
  {
    if log[|log| - 1].accountId == id {
      i := |log| - 1;
    } else {
      i := LastEvent(log[..|log| - 1], id);
    }
  }

  // ---- Settled invoices ---------------------------------------------------------

  ghost predicate PaidBy(i: Invoice, e: Core.ReserveUpdate) {
    && e.incoming
    && e.proofId == i.settledProofId && e.amountDrops == i.settledAmountDrops && e.attestedAt == i.settledAt
    && i.minimumAmountDrops <= e.amountDrops && e.attestedAt <= i.dueAt
  }

  ghost predicate HasPayment(i: Invoice, log: seq<Core.ReserveUpdate>) {
    exists n :: 0 <= n < |log| && PaidBy(i, log[n])
  }

  /** Every settled invoice was paid by a reserve event, and no two by the same one. */
  ghost predicate InvoicesPaid(w: World) {
    && (forall k | k in w.invoices.invoices && w.invoices.invoices[k].status == Settled ::
          HasPayment(w.invoices.invoices[k], w.core.log))
    && forall k, m | k in w.invoices.invoices && m in w.invoices.invoices && k != m
          && w.invoices.invoices[k].status == w.invoices.invoices[m].status == Settled ::
          w.invoices.invoices[k].settledProofId != w.invoices.invoices[m].settledProofId
  }

  lemma PaymentStays(i: Invoice, log: seq<Core.ReserveUpdate>, log': seq<Core.ReserveUpdate>)
    requires HasPayment(i, log) && log <= log'
    ensures HasPayment(i, log')
  {
    var n :| 0 <= n < |log| && PaidBy(i, log[n]);
    assert PaidBy(i, log'[n]);
  }

  lemma CoreKeepsInvoicesPaid(w: World, tx: Tx, c: CoreCall)
    requires Wired(w) && SpentOnce(w) && InvoicesPaid(w) && StepCore(w, tx, c).Ok?
    ensures InvoicesPaid(StepCore(w, tx, c).value)
  {
    CoreFrame(w, tx, c);
    var w' := StepCore(w, tx, c).value;
    if IsSubmission(c) {
      SubmissionEffect(w, tx, c);
      SubmissionSpends(w, tx, c);
    } else {
      OtherCallsKeepMarks(w, tx, c);
    }
    forall k | k in w.invoices.invoices && w.invoices.invoices[k].status == Settled
      ensures HasPayment(w.invoices.invoices[k], w'.core.log)
      ensures IsSubmission(c) ==> w.invoices.invoices[k].settledProofId != c.p.Id()
    {
      PaymentStays(w.invoices.invoices[k], w.core.log, w'.core.log);
    }
    if c.SubmitInvoicePaymentProof? {
      InvoiceSubmissionSettles(w, tx, c);
      assert PaidBy(w'.invoices.invoices[c.invoiceId], w'.core.log[|w.core.log|]);
    }
  }

  lemma InvoiceCallsKeepPaid(w: World, tx: Tx, c: InvoiceCall)
    requires Wired(w) && InvoicesPaid(w) && tx.sender != w.at.core && StepInvoices(w, tx, c).Ok?
    ensures InvoicesPaid(StepInvoices(w, tx, c).value)
  {}

  lemma InvoicesPaidStep(w: World, tx: Tx)
    requires Wired(w) && SpentOnce(w) && InvoicesPaid(w) && tx.External(w.at)
    ensures InvoicesPaid(Next(w, tx))
  {
    assert w.at.core in w.at.All();
    if Step(w, tx).Ok? {
      match tx.call
      case ToCore(c) => CoreKeepsInvoicesPaid(w, tx, c);
      case ToInvoices(c) => InvoiceCallsKeepPaid(w, tx, c);
      case ToVault(c) => VaultFrame(w, tx, c);
      case ToRouter(c) => RouterFrame(w, tx, c);
      case _ => {}
    }
  }

  /** Acceptance of an invoice payment never looks at which account or borrower the invoice names. */
  lemma SettlementIgnoresInvoiceAccount(s: InvoiceState, sender: Address, id: Bytes32, proofId: Bytes32, payer: Bytes32,
                                        amount: uint256, paidAt: uint64, memo: Bytes32, b: Address, account: Bytes32)
    requires id in s.invoices
    ensures var i := s.invoices[id].(borrower := b, reserveAccountId := account);
      var renamed := s.(invoices := s.invoices[id := i]);
      var (r, r') := (s.Settle(sender, id, proofId, payer, amount, paidAt, memo),
                      renamed.Settle(sender, id, proofId, payer, amount, paidAt, memo));
      && r.Ok? == r'.Ok?
      && (r.Revert? ==> r == r')
      && (r.Ok? ==> r'.value == r.value.(invoices := r.value.invoices[id :=
            r.value.invoices[id].(borrower := b, reserveAccountId := account)]))
  {}
}
