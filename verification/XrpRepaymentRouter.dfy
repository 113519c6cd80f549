/** XrpRepaymentRouter.sol: quotes a repayment in XRP drops and settles it with a proof. */
module XrpRepaymentRouter {
  import opened Evm
  import opened ProofRegistry
  import opened CreditVault
  import Risk = RiskEngine

  datatype RepaymentStatus = Open | Settled | Cancelled | Expired

  datatype RepaymentIntent = RepaymentIntent(
    borrower: Address, reserveAccountId: Bytes32, memoHash: Bytes32, settledProofId: Bytes32,
    repaymentWad: uint256, expectedAmountDrops: uint256, expiresAt: uint64, status: RepaymentStatus)

  /** One accepted settlement: the `RepaymentSettled` event and the drops the proof reported. */
  datatype Settlement = Settlement(intentId: Bytes32, proofId: Bytes32, receivedDrops: uint256, repaymentWad: uint256)

  /** `quotedPrice` is a history variable: the price each intent was quoted at. */
  datatype RouterState = RouterState(
    collectionAddressHash: Bytes32, priceTtlSeconds: uint64, nextNonce: map<Address, uint256>,
    intents: map<Bytes32, RepaymentIntent>, quotedPrice: map<Bytes32, uint256>, log: seq<Settlement>)
  {
    function Create(v: VaultState, self: Address, sender: Address, env: Env, accountId: Bytes32, repaymentWad: uint256,
                    memoHash: Bytes32, expiresAt: uint64): Outcome<(RouterState, VaultState)>
    {
      var _ :- Require(repaymentWad != 0 && memoHash != ZERO_BYTES32, ZeroValue);
      var _ :- Require(expiresAt > env.now, IntentExpired);
      var _ :- Require(sender in v.positions, CreditLineNotOpen);
      var _ :- Require(v.positions[sender].reserveAccountId == accountId, CreditLineMismatch);
      var _ :- Require(repaymentWad <= v.positions[sender].principalWad, RepaymentExceedsPrincipal);
      var _ :- Require(env.priceTimestamp <= env.now && env.now - env.priceTimestamp <= priceTtlSeconds, PriceStale);
      var drops :- MulDivCeil(repaymentWad, Risk.DROPS_PER_XRP, env.priceWad);
      var nonce := Lookup(nextNonce, sender);
      var _ :- Require(nonce < MAX_UINT256, Panic);
      var v' :- v.ReserveXrp(self, sender, repaymentWad);
      var id := IntentId(sender, accountId, memoHash, nonce);
      Ok((this.(nextNonce := nextNonce[sender := nonce + 1],
                intents := intents[id := RepaymentIntent(sender, accountId, memoHash, ZERO_BYTES32, repaymentWad, drops,
                                                         expiresAt, Open)],
                quotedPrice := quotedPrice[id := env.priceWad]), v'))
    }

    function Settle(v: VaultState, reg: RegistryState, self: Address, sender: Address, env: Env, id: Bytes32,
                    p: Payment)
      : Outcome<(RouterState, VaultState, RegistryState)>
    {
      var _ :- Require(id in intents, IntentNotFound);
      var i := intents[id];
      var _ :- Require(i.status == Open, IntentNotOpen);
      var _ :- Require(sender == i.borrower, ProofOwnerMismatch);
      var _ :- Require(env.proofValid, InvalidFdcProof);
      var _ :- Require(p.sourceId == TEST_XRP, UnsupportedProofSource);
      var _ :- Require(p.proofOwner == i.borrower, ProofOwnerMismatch);
      var _ :- Require(p.status == 0, InvalidPaymentStatus);
      var _ :- Require(p.blockTimestamp <= i.expiresAt, IntentExpired);
      var _ :- Require(p.receivingAddressHash == collectionAddressHash, InvalidCollectionAddress);
      var _ :- Require(MemoHash(p.firstMemoData) == i.memoHash, MemoMismatch);
      var _ :- Require(p.receivedAmount > 0, PaymentAmountMismatch);
      var _ :- Require(p.receivedAmount == i.expectedAmountDrops, PaymentAmountMismatch);
      var reg' :- reg.Consume(self, p.Id());
      var v' :- v.SettleXrp(self, env.now, i.borrower, i.repaymentWad);
      Ok((this.(intents := intents[id := i.(status := Settled, settledProofId := p.Id())],
                log := log + [Settlement(id, p.Id(), p.receivedAmount, i.repaymentWad)]), v', reg'))
    }

    function Cancel(v: VaultState, self: Address, sender: Address, id: Bytes32): Outcome<(RouterState, VaultState)> {
      var _ :- Require(id in intents, IntentNotFound);
      var _ :- Require(sender == intents[id].borrower, ProofOwnerMismatch);
      var _ :- Require(intents[id].status == Open, IntentNotOpen);
      var v' :- v.ReleaseXrp(self, intents[id].borrower, intents[id].repaymentWad);
      Ok((this.(intents := intents[id := intents[id].(status := Cancelled)]), v'))
    }

    function Expire(v: VaultState, self: Address, now: uint64, id: Bytes32): Outcome<(RouterState, VaultState)> {
      var _ :- Require(id in intents, IntentNotFound);
      var _ :- Require(intents[id].status == Open, IntentNotOpen);
      var _ :- Require(now > intents[id].expiresAt, IntentExpired);
      var v' :- v.ReleaseXrp(self, intents[id].borrower, intents[id].repaymentWad);
      Ok((this.(intents := intents[id := intents[id].(status := Expired)]), v'))
    }
  }

  class XrpRepaymentRouter {
    const address: Address
    const vault: CreditVault
    const proofRegistry: XrpProofRegistry
    const collectionAddressHash: Bytes32
    const priceTtlSeconds: uint64
    var nextNonce: map<Address, uint256>
    var intents: map<Bytes32, RepaymentIntent>
    var events: seq<Settlement>
    ghost var quotedPrice: map<Bytes32, uint256>

    ghost function State(): RouterState
      reads this
    {
      RouterState(collectionAddressHash, priceTtlSeconds, nextNonce, intents, quotedPrice, events)
    }

    constructor (self: Address, vault: CreditVault, proofRegistry: XrpProofRegistry, collectionAddressHash: Bytes32,
                 priceTtlSeconds: uint64)
      ensures address == self && this.vault == vault && this.proofRegistry == proofRegistry
      ensures State() == RouterState(collectionAddressHash, priceTtlSeconds, map[], map[], map[], [])
    {
      address := self;
      this.vault, this.proofRegistry := vault, proofRegistry;
      this.collectionAddressHash, this.priceTtlSeconds := collectionAddressHash, priceTtlSeconds;
      nextNonce, intents, events, quotedPrice := map[], map[], [], map[];
    }

    /** Stores the intent before the vault is asked to reserve the amount. */
    method CreateRepaymentIntent(sender: Address, env: Env, accountId: Bytes32, repaymentWad: uint256,
                                 memoHash: Bytes32, expiresAt: uint64)
      returns (out: Outcome<Bytes32>)
      modifies this, vault
      ensures Tracks(out, old(State().Create(vault.State(), address, sender, env, accountId, repaymentWad, memoHash,
                                             expiresAt)),
                     (State(), vault.State()))
      ensures out.Ok? ==> out.value == IntentId(sender, accountId, memoHash, old(Lookup(nextNonce, sender)))
      ensures vault.token == old(vault.token)
      ensures out.Ok? ==>
        && out.value in intents
        && var i := intents[out.value];
        && i.borrower == sender && i.reserveAccountId == accountId && i.memoHash == memoHash
        && i.repaymentWad == repaymentWad && i.expiresAt == expiresAt && i.status == Open
    {
      // Names the specified outcome for the prover.
      ghost var spec := State().Create(vault.State(), address, sender, env, accountId, repaymentWad, memoHash,
                                       expiresAt);
      var _ :- Require(repaymentWad != 0 && memoHash != ZERO_BYTES32, ZeroValue);
      var _ :- Require(expiresAt > env.now, IntentExpired);
      var _ :- Require(sender in vault.positions, CreditLineNotOpen);
      var position := vault.positions[sender];
      var _ :- Require(position.reserveAccountId == accountId, CreditLineMismatch);
      var _ :- Require(repaymentWad <= position.principalWad, RepaymentExceedsPrincipal);
      var _ :- Require(env.priceTimestamp <= env.now && env.now - env.priceTimestamp <= priceTtlSeconds, PriceStale);
      var expectedAmountDrops :- MulDivCeil(repaymentWad, Risk.DROPS_PER_XRP, env.priceWad);
      var nonce := Lookup(nextNonce, sender);
      var _ :- Require(nonce < MAX_UINT256, Panic);
      nextNonce := nextNonce[sender := nonce + 1];
      var intentId := IntentId(sender, accountId, memoHash, nonce);
      StoreIntent(intentId, RepaymentIntent(sender, accountId, memoHash, ZERO_BYTES32, repaymentWad,
                                            expectedAmountDrops, expiresAt, Open), env.priceWad);
      var _ :- vault.ReserveXrpRepayment(address, sender, repaymentWad);
      return Ok(intentId);
    }

    method StoreIntent(intentId: Bytes32, intent: RepaymentIntent, ghost price: uint256)
      modifies this`intents, this`quotedPrice
      ensures intents == old(intents)[intentId := intent] && quotedPrice == old(quotedPrice)[intentId := price]
    {
      intents := intents[intentId := intent];
      quotedPrice := quotedPrice[intentId := price];
    }

    /** Spends the proof and reduces the principal before the intent is marked. */
    method SettleRepaymentWithProof(sender: Address, env: Env, intentId: Bytes32, p: Payment) returns (out: Outcome<()>)
      modifies this, vault, proofRegistry
      ensures Tracks(out, old(State().Settle(vault.State(), proofRegistry.State(), address, sender, env, intentId, p)),
                     (State(), vault.State(), proofRegistry.State()))
      ensures vault.token == old(vault.token)
    {
      var _ :- Require(intentId in intents, IntentNotFound);
      var intent := intents[intentId];
      var _ :- Require(intent.status == Open, IntentNotOpen);
      var _ :- Require(sender == intent.borrower, ProofOwnerMismatch);
      var _ :- Require(env.proofValid, InvalidFdcProof);
      var _ :- Require(p.sourceId == TEST_XRP, UnsupportedProofSource);
      var _ :- Require(p.proofOwner == intent.borrower, ProofOwnerMismatch);
      var _ :- Require(p.status == 0, InvalidPaymentStatus);
      var _ :- Require(p.blockTimestamp <= intent.expiresAt, IntentExpired);
      var _ :- Require(p.receivingAddressHash == collectionAddressHash, InvalidCollectionAddress);
      var _ :- Require(MemoHash(p.firstMemoData) == intent.memoHash, MemoMismatch);
      var _ :- Require(p.receivedAmount > 0, PaymentAmountMismatch);
      var receivedAmount: uint256 := p.receivedAmount;
      var _ :- Require(receivedAmount == intent.expectedAmountDrops, PaymentAmountMismatch);
      var proofId := p.Id();
      var _ :- proofRegistry.Consume(address, proofId);
      var _ :- vault.SettleXrpRepayment(address, env.now, intent.borrower, intent.repaymentWad);
      intents := intents[intentId := intents[intentId].(status := Settled)];
      intents := intents[intentId := intents[intentId].(settledProofId := proofId)];
      events := events + [Settlement(intentId, proofId, receivedAmount, intent.repaymentWad)];
      assert intents == old(intents)[intentId := intents[intentId]];
      return Ok(());
    }

    /** Marks the intent before the vault releases the reservation. */
    method CancelRepaymentIntent(sender: Address, intentId: Bytes32) returns (out: Outcome<()>)
      modifies this, vault
      ensures Tracks(out, old(State().Cancel(vault.State(), address, sender, intentId)), (State(), vault.State()))
      ensures vault.token == old(vault.token)
    {
      var _ :- Require(intentId in intents, IntentNotFound);
      var _ :- Require(sender == intents[intentId].borrower, ProofOwnerMismatch);
      var _ :- Require(intents[intentId].status == Open, IntentNotOpen);
      intents := intents[intentId := intents[intentId].(status := Cancelled)];
      var _ :- vault.ReleaseXrpRepayment(address, intents[intentId].borrower, intents[intentId].repaymentWad);
      return Ok(());
    }

    method ExpireRepaymentIntent(now: uint64, intentId: Bytes32) returns (out: Outcome<()>)
      modifies this, vault
      ensures Tracks(out, old(State().Expire(vault.State(), address, now, intentId)), (State(), vault.State()))
      ensures vault.token == old(vault.token)
    {
      var _ :- Require(intentId in intents, IntentNotFound);
      var _ :- Require(intents[intentId].status == Open, IntentNotOpen);
      var _ :- Require(now > intents[intentId].expiresAt, IntentExpired);
      intents := intents[intentId := intents[intentId].(status := Expired)];
      var _ :- vault.ReleaseXrpRepayment(address, intents[intentId].borrower, intents[intentId].repaymentWad);
      return Ok(());
    }

    method Rollback(nonces: map<Address, uint256>, savedIntents: map<Bytes32, RepaymentIntent>,
                    savedEvents: seq<Settlement>,
                    ghost prices: map<Bytes32, uint256>)
      modifies this
      ensures State() == RouterState(collectionAddressHash, priceTtlSeconds, nonces, savedIntents, prices, savedEvents)
    {
      nextNonce, intents, events, quotedPrice := nonces, savedIntents, savedEvents, prices;
    }
  }
}
