/** InvoiceRegistry.sol: invoice terms that only a payment verified by the core can settle. */
module InvoiceRegistry {
  import opened Evm

  datatype InvoiceStatus = Open | Settled | Cancelled | Expired

  datatype Invoice = Invoice(
    borrower: Address, reserveAccountId: Bytes32, payerAddressHash: Bytes32, memoHash: Bytes32,
    settledProofId: Bytes32, minimumAmountDrops: uint256, settledAmountDrops: uint256,
    dueAt: uint64, settledAt: uint64, status: InvoiceStatus)

  datatype InvoiceState = InvoiceState(core: Address, nextNonce: map<Address, uint256>,
    invoices: map<Bytes32, Invoice>)
  {
    function Create(sender: Address, now: uint64, reserveAccountId: Bytes32, payerAddressHash: Bytes32,
                    minimumAmountDrops: uint256, dueAt: uint64, memoHash: Bytes32): Outcome<InvoiceState>
    {
      var _ :- Require(reserveAccountId != ZERO_BYTES32 && payerAddressHash != ZERO_BYTES32 && memoHash != ZERO_BYTES32,
                       ZeroValue);
      var _ :- Require(minimumAmountDrops != 0, ZeroValue);
      var _ :- Require(dueAt > now, InvalidDueAt);
      var nonce := Lookup(nextNonce, sender);
      var _ :- Require(nonce < MAX_UINT256, Panic);
      var id := InvoiceId(sender, reserveAccountId, payerAddressHash, memoHash, nonce);
      Ok(this.(nextNonce := nextNonce[sender := nonce + 1],
               invoices := invoices[id := Invoice(sender, reserveAccountId, payerAddressHash, memoHash, ZERO_BYTES32,
                                                  minimumAmountDrops, 0, dueAt, 0, Open)]))
    }

    function Settle(sender: Address, id: Bytes32, proofId: Bytes32, payerAddressHash: Bytes32,
                    amountDrops: uint256, paidAt: uint64, memoHash: Bytes32): Outcome<InvoiceState>
    {
      var _ :- Require(sender == core, OnlyCore);
      var _ :- Require(id in invoices, InvoiceNotFound);
      var i := invoices[id];
      var _ :- Require(i.status == Open, InvoiceNotOpen);
      var _ :- Require(paidAt <= i.dueAt, InvoicePastDue);
      var _ :- Require(payerAddressHash == i.payerAddressHash, PayerMismatch);
      var _ :- Require(amountDrops >= i.minimumAmountDrops, PaymentAmountTooLow);
      var _ :- Require(memoHash == i.memoHash, MemoMismatch);
      Ok(this.(invoices := invoices[id := i.(status := Settled, settledProofId := proofId,
                                             settledAmountDrops := amountDrops, settledAt := paidAt)]))
    }

    function Cancel(sender: Address, id: Bytes32): Outcome<InvoiceState> {
      var _ :- Require(id in invoices, InvoiceNotFound);
      var _ :- Require(sender == invoices[id].borrower, OnlyBorrower);
      var _ :- Require(invoices[id].status == Open, InvoiceNotOpen);
      Ok(this.(invoices := invoices[id := invoices[id].(status := Cancelled)]))
    }

    function Expire(now: uint64, id: Bytes32): Outcome<InvoiceState> {
      var _ :- Require(id in invoices, InvoiceNotFound);
      var _ :- Require(invoices[id].status == Open, InvoiceNotOpen);
      var _ :- Require(now > invoices[id].dueAt, InvalidDueAt);
      Ok(this.(invoices := invoices[id := invoices[id].(status := Expired)]))
    }
  }

  class InvoiceRegistryContract {
    const address: Address
    const core: Address
    var nextNonce: map<Address, uint256>
    var invoices: map<Bytes32, Invoice>

    function State(): InvoiceState
      reads this
    {
      InvoiceState(core, nextNonce, invoices)
    }

    constructor (self: Address, core: Address)
      ensures address == self && this.core == core
      ensures State() == InvoiceState(core, map[], map[])
    {
      address := self;
      this.core := core;
      nextNonce, invoices := map[], map[];
    }

    method CreateInvoice(sender: Address, now: uint64, reserveAccountId: Bytes32, payerAddressHash: Bytes32,
                         minimumAmountDrops: uint256, dueAt: uint64, memoHash: Bytes32)
      returns (out: Outcome<Bytes32>)
      modifies this
      ensures Tracks(out, old(State().Create(sender, now, reserveAccountId, payerAddressHash, minimumAmountDrops, dueAt,
                                             memoHash)),
                     State())
      ensures out.Ok? ==>
        out.value == InvoiceId(sender, reserveAccountId, payerAddressHash, memoHash, old(Lookup(nextNonce, sender)))
    {
      var _ :- Require(reserveAccountId != ZERO_BYTES32 && payerAddressHash != ZERO_BYTES32 && memoHash != ZERO_BYTES32,
                       ZeroValue);
      var _ :- Require(minimumAmountDrops != 0, ZeroValue);
      var _ :- Require(dueAt > now, InvalidDueAt);
      var nonce := Lookup(nextNonce, sender);
      var _ :- Require(nonce < MAX_UINT256, Panic);
      nextNonce := nextNonce[sender := nonce + 1];
      var invoiceId := InvoiceId(sender, reserveAccountId, payerAddressHash, memoHash, nonce);
      invoices := invoices[invoiceId := Invoice(sender, reserveAccountId, payerAddressHash, memoHash, ZERO_BYTES32,
                                                minimumAmountDrops, 0, dueAt, 0, Open)];
      return Ok(invoiceId);
    }

    method SettleFromCore(sender: Address, invoiceId: Bytes32, proofId: Bytes32, payerAddressHash: Bytes32,
                          amountDrops: uint256, paidAt: uint64, memoHash: Bytes32)
      returns (out: Outcome<()>)
      modifies this
      ensures Tracks(out, old(State().Settle(sender, invoiceId, proofId, payerAddressHash, amountDrops, paidAt,
                                             memoHash)),
                     State())
    {
      // Names the specified outcome for the prover.
      ghost var spec := State().Settle(sender, invoiceId, proofId, payerAddressHash, amountDrops, paidAt, memoHash);
      var _ :- Require(sender == core, OnlyCore);
      var _ :- Require(invoiceId in invoices, InvoiceNotFound);
      var invoice := invoices[invoiceId];
      var _ :- Require(invoice.status == Open, InvoiceNotOpen);
      var _ :- Require(paidAt <= invoice.dueAt, InvoicePastDue);
      var _ :- Require(payerAddressHash == invoice.payerAddressHash, PayerMismatch);
      var _ :- Require(amountDrops >= invoice.minimumAmountDrops, PaymentAmountTooLow);
      var _ :- Require(memoHash == invoice.memoHash, MemoMismatch);
      MarkSettled(invoiceId, proofId, amountDrops, paidAt);
      return Ok(());
    }

    /** The four writes of a settlement. */
    method MarkSettled(invoiceId: Bytes32, proofId: Bytes32, amountDrops: uint256, paidAt: uint64)
      requires invoiceId in invoices
      modifies this`invoices
      ensures invoices == old(invoices)[invoiceId := old(invoices)[invoiceId]
                .(status := Settled, settledProofId := proofId, settledAmountDrops := amountDrops, settledAt := paidAt)]
    {
      invoices := invoices[invoiceId := invoices[invoiceId].(status := Settled)];
      invoices := invoices[invoiceId := invoices[invoiceId].(settledProofId := proofId)];
      invoices := invoices[invoiceId := invoices[invoiceId].(settledAmountDrops := amountDrops)];
      invoices := invoices[invoiceId := invoices[invoiceId].(settledAt := paidAt)];
      assert invoices == old(invoices)[invoiceId := invoices[invoiceId]];
    }

    method CancelInvoice(sender: Address, invoiceId: Bytes32) returns (out: Outcome<()>)
      modifies this
      ensures Tracks(out, old(State().Cancel(sender, invoiceId)), State())
    {
      var _ :- Require(invoiceId in invoices, InvoiceNotFound);
      var _ :- Require(sender == invoices[invoiceId].borrower, OnlyBorrower);
      var _ :- Require(invoices[invoiceId].status == Open, InvoiceNotOpen);
      invoices := invoices[invoiceId := invoices[invoiceId].(status := Cancelled)];
      return Ok(());
    }

    method ExpireInvoice(now: uint64, invoiceId: Bytes32) returns (out: Outcome<()>)
      modifies this
      ensures Tracks(out, old(State().Expire(now, invoiceId)), State())
    {
      var _ :- Require(invoiceId in invoices, InvoiceNotFound);
      var _ :- Require(invoices[invoiceId].status == Open, InvoiceNotOpen);
      var _ :- Require(now > invoices[invoiceId].dueAt, InvalidDueAt);
      invoices := invoices[invoiceId := invoices[invoiceId].(status := Expired)];
      return Ok(());
    }

    method Rollback(saved: InvoiceState)
      requires saved.core == core
      modifies this
      ensures State() == saved
    {
      nextNonce, invoices := saved.nextNonce, saved.invoices;
    }
  }
}
