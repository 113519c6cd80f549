/** Terms never change, a closed intent or invoice stays closed, and quotes hold their value. */
module Lifecycle {
  import opened Evm
  import opened Sums
  import opened Protocol
  import opened Wiring
  import opened Reservations
  import opened RiskEngine
  import opened CreditMath
  import Router = XrpRepaymentRouter
  import Inv = InvoiceRegistry
  import Payments
  import Conservation

  // ---- Intents ------------------------------------------------------------------

  /** `later` still has every intent of `earlier` on the same terms, and every closed one as it was. */
  ghost predicate IntentsKept(earlier: Intents, later: Intents) {
    forall k | k in earlier ::
      && k in later
      && later[k] == earlier[k].(status := later[k].status, settledProofId := later[k].settledProofId)
      && (earlier[k].status != Router.Open ==> later[k] == earlier[k])
  }

  lemma IntentsKeptStep(w: World, tx: Tx)
    requires Wired(w) && IntentsFresh(w)
    ensures IntentsKept(w.router.intents, Next(w, tx).router.intents)
  {
    if Step(w, tx).Ok? {
      match tx.call
      case ToCore(c) => CoreFrame(w, tx, c);
      case ToVault(c) => VaultFrame(w, tx, c);
      case ToRouter(c) => RouterEffect(w, tx, c);
      case _ => {}
    }
  }

  // ---- Invoices -----------------------------------------------------------------

  type Invoices = map<Bytes32, Inv.Invoice>

  ghost predicate InvoicesFresh(s: Inv.InvoiceState) {
    forall k | k in s.invoices ::
      && k.InvoiceId? && k.issuer == s.invoices[k].borrower && k.reserveId == s.invoices[k].reserveAccountId
      && k.payerHash == s.invoices[k].payerAddressHash && k.memo == s.invoices[k].memoHash
      && k.nonce < Lookup(s.nextNonce, s.invoices[k].borrower)
  }

  ghost predicate InvoicesKept(earlier: Invoices, later: Invoices) {
    forall k | k in earlier ::
      && k in later
      && later[k] == earlier[k].(status := later[k].status, settledProofId := later[k].settledProofId,
                                 settledAmountDrops := later[k].settledAmountDrops, settledAt := later[k].settledAt)
      && (earlier[k].status != Inv.Open ==> later[k] == earlier[k])
  }

  lemma InvoiceCallKeepsFresh(w: World, tx: Tx, c: InvoiceCall)
    requires InvoicesFresh(w.invoices) && StepInvoices(w, tx, c).Ok?
    ensures InvoicesFresh(StepInvoices(w, tx, c).value.invoices)
  {}

  lemma InvoiceCallKeepsTerms(w: World, tx: Tx, c: InvoiceCall)
    requires InvoicesFresh(w.invoices) && StepInvoices(w, tx, c).Ok?
    ensures InvoicesKept(w.invoices.invoices, StepInvoices(w, tx, c).value.invoices.invoices)
  {
    if c.CreateInvoice? {
      var id := InvoiceId(tx.sender, c.accountId, c.payerAddressHash, c.memoHash,
                          Lookup(w.invoices.nextNonce, tx.sender));
      assert id !in w.invoices.invoices;
    }
  }

  lemma InvoicesKeptStep(w: World, tx: Tx)
    requires Wired(w) && InvoicesFresh(w.invoices)
    ensures InvoicesFresh(Next(w, tx).invoices) && InvoicesKept(w.invoices.invoices, Next(w, tx).invoices.invoices)
  {
    if Step(w, tx).Ok? {
      match tx.call
      case ToCore(c) =>
        CoreFrame(w, tx, c);
        if c.SubmitInvoicePaymentProof? { Payments.InvoiceSubmissionSettles(w, tx, c); }
      case ToInvoices(c) => InvoiceCallKeepsFresh(w, tx, c); InvoiceCallKeepsTerms(w, tx, c);
      case ToVault(c) => VaultFrame(w, tx, c);
      case ToRouter(c) => RouterFrame(w, tx, c);
      case _ => {}
    }
  }

  // ---- Quotes and settlements ---------------------------------------------------

  /** Every intent asks for exactly the quote of its repayment at the price it was created at. */
  ghost predicate QuotesHeld(ro: Router.RouterState) {
    forall k | k in ro.intents ::
      && k in ro.quotedPrice && ro.quotedPrice[k] > 0
      && ro.intents[k].expectedAmountDrops == Quote(ro.intents[k].repaymentWad, ro.quotedPrice[k])
  }

  /** The value of the drops received, each settlement at the price its intent was quoted at. */
  function ReceivedValue(log: seq<Router.Settlement>, prices: map<Bytes32, uint256>): nat {
    if log == [] then 0 else
      var e := log[|log| - 1];
      ReceivedValue(log[..|log| - 1], prices) + Gross(e.receivedDrops, Lookup(prices, e.intentId))
  }

  function Cleared(log: seq<Router.Settlement>): nat {
    if log == [] then 0 else Cleared(log[..|log| - 1]) + log[|log| - 1].repaymentWad
  }

  ghost predicate SettlementsValued(ro: Router.RouterState) {
    && (forall e | e in ro.log :: e.intentId in ro.intents)
    && ReceivedValue(ro.log, ro.quotedPrice) >= Cleared(ro.log)
    && Cleared(ro.log) == MapSum(Conservation.AllSettled(ro.intents))
  }

  lemma {:induction false} UnusedPrice(log: seq<Router.Settlement>, prices: map<Bytes32, uint256>, k: Bytes32,
                                       p: uint256)
    requires forall e | e in log :: e.intentId != k
    ensures ReceivedValue(log, prices[k := p]) == ReceivedValue(log, prices)
  {
    if log != [] {
      UnusedPrice(log[..|log| - 1], prices, k, p);
      assert log[|log| - 1].intentId != k;
    }
  }

  lemma CreateQuotes(w: World, tx: Tx, c: RouterCall)
    requires c.CreateRepaymentIntent? && StepRouter(w, tx, c).Ok?
    ensures var (ro, ro') := (w.router, StepRouter(w, tx, c).value.router);
      && tx.env.priceWad > 0 && ro'.log == ro.log
      && ro'.quotedPrice == ro.quotedPrice[Touched(w, tx, c) := tx.env.priceWad]
      && Touched(w, tx, c) in ro'.intents
      && ro'.intents[Touched(w, tx, c)].expectedAmountDrops == Quote(c.repaymentWad, tx.env.priceWad)
      && ro'.intents[Touched(w, tx, c)].repaymentWad == c.repaymentWad
  {}

  lemma CloseKeepsQuotes(w: World, tx: Tx, c: RouterCall)
    requires !c.CreateRepaymentIntent? && StepRouter(w, tx, c).Ok?
    ensures var (ro, ro') := (w.router, StepRouter(w, tx, c).value.router);
      ro'.quotedPrice == ro.quotedPrice && (c.SettleRepaymentWithProof? || ro'.log == ro.log)
  {}

  lemma RouterKeepsQuotes(w: World, tx: Tx, c: RouterCall)
    requires IntentsFresh(w) && QuotesHeld(w.router) && StepRouter(w, tx, c).Ok?
    ensures QuotesHeld(StepRouter(w, tx, c).value.router)
  {
    RouterEffect(w, tx, c);
    if c.CreateRepaymentIntent? { CreateQuotes(w, tx, c); } else { CloseKeepsQuotes(w, tx, c); }
  }

  /** A settlement receives the quoted drops, which are worth what it clears. */
  lemma SettlementCovers(ro: Router.RouterState, ro': Router.RouterState, id: Bytes32, i: Router.RepaymentIntent)
    requires QuotesHeld(ro) && SettlementsValued(ro) && id in ro.intents
    requires ro.intents[id].status == Router.Open && i.status == Router.Settled
    requires i.repaymentWad == ro.intents[id].repaymentWad
    requires ro'.intents == ro.intents[id := i] && ro'.quotedPrice == ro.quotedPrice
    requires ro'.log == ro.log + [Router.Settlement(id, i.settledProofId, ro.intents[id].expectedAmountDrops,
                                                    i.repaymentWad)]
    ensures SettlementsValued(ro')
  {
    assert ro'.log[..|ro'.log| - 1] == ro.log;
    QuoteAdjoint(i.repaymentWad, ro.quotedPrice[id], ro.intents[id].expectedAmountDrops);
    Conservation.AllSettledMove(ro.intents, id, i);
  }

  lemma NothingSettled(ro: Router.RouterState, ro': Router.RouterState, id: Bytes32, i: Router.RepaymentIntent,
                       price: uint256)
    requires SettlementsValued(ro) && ro'.intents == ro.intents[id := i] && ro'.log == ro.log
    requires i.status != Router.Settled && (id in ro.intents ==> ro.intents[id].status == Router.Open)
    requires ro'.quotedPrice == ro.quotedPrice || (id !in ro.intents && ro'.quotedPrice == ro.quotedPrice[id := price])
    ensures SettlementsValued(ro')
  {
    Conservation.AllSettledMove(ro.intents, id, i);
    if ro'.quotedPrice != ro.quotedPrice { UnusedPrice(ro.log, ro.quotedPrice, id, price); }
  }

  lemma RouterKeepsValue(w: World, tx: Tx, c: RouterCall)
    requires IntentsFresh(w) && QuotesHeld(w.router) && SettlementsValued(w.router) && StepRouter(w, tx, c).Ok?
    ensures SettlementsValued(StepRouter(w, tx, c).value.router)
  {
    RouterEffect(w, tx, c);
    var (ro, ro', id) := (w.router, StepRouter(w, tx, c).value.router, Touched(w, tx, c));
    if c.CreateRepaymentIntent? { CreateQuotes(w, tx, c); } else { CloseKeepsQuotes(w, tx, c); }
    if c.SettleRepaymentWithProof? {
      Payments.SettlementSpends(w, tx, c);
      SettlementCovers(ro, ro', id, ro'.intents[id]);
    } else {
      NothingSettled(ro, ro', id, ro'.intents[id], tx.env.priceWad);
    }
  }

  lemma QuotesStep(w: World, tx: Tx)
    requires Wired(w) && IntentsFresh(w) && QuotesHeld(w.router)
    ensures QuotesHeld(Next(w, tx).router)
  {
    if Step(w, tx).Ok? {
      match tx.call
      case ToCore(c) => CoreFrame(w, tx, c);
      case ToVault(c) => VaultFrame(w, tx, c);
      case ToRouter(c) => RouterKeepsQuotes(w, tx, c);
      case _ => {}
    }
  }

  lemma SettlementsStep(w: World, tx: Tx)
    requires Wired(w) && IntentsFresh(w) && QuotesHeld(w.router) && SettlementsValued(w.router)
    ensures SettlementsValued(Next(w, tx).router)
  {
    if Step(w, tx).Ok? {
      match tx.call
      case ToCore(c) => CoreFrame(w, tx, c);
      case ToVault(c) => VaultFrame(w, tx, c);
      case ToRouter(c) => RouterKeepsValue(w, tx, c);
      case _ => {}
    }
  }
}
