/** ReserveFlowCore.sol: the reserve ledger, moved only by FDC-verified XRPL payments. */
module ReserveFlowCore {
  import opened Evm
  import opened AccessControl
  import opened ProofRegistry
  import opened InvoiceRegistry

  datatype AccountStatus = PendingApproval | Active | Stale | Frozen

  datatype ReserveAccount = ReserveAccount(
    borrower: Address, sourceId: Bytes32, externalAddressHash: Bytes32, balanceDrops: uint256,
    lastExternalLedger: uint64, lastAttestedAt: uint64, status: AccountStatus)

  /** The `ReserveUpdated` event. */
  datatype ReserveUpdate = ReserveUpdate(
    accountId: Bytes32, proofId: Bytes32, incoming: bool, amountDrops: uint256, balanceDrops: uint256,
    externalLedger: uint64, attestedAt: uint64)

  const XRPL_PAYMENT_SUCCESS: uint8 := 0

  function PositiveAmount(value: int256): Outcome<uint256> {
    if value <= 0 then Revert(InvalidPaymentAmount) else Ok(value)
  }

  datatype CoreState = CoreState(
    roles: Roles, proofRegistry: Address, invoiceRegistry: Address, approvedBorrowers: set<Address>,
    accounts: map<Bytes32, ReserveAccount>, usedProofs: set<Bytes32>, log: seq<ReserveUpdate>)
  {
    function SetBorrowerApproval(sender: Address, borrower: Address, approved: bool): Outcome<CoreState> {
      var _ :- Require(sender in roles.operators, UnauthorizedAccount);
      var _ :- Require(borrower != ZERO_ADDRESS, ZeroAddress);
      var one := {borrower};
      Ok(this.(approvedBorrowers := if approved then approvedBorrowers + one else approvedBorrowers - one))
    }

    function SetProofRegistry(sender: Address, registry: Address): Outcome<CoreState> {
      var _ :- Require(sender in roles.operators, UnauthorizedAccount);
      var _ :- Require(registry != ZERO_ADDRESS, ZeroAddress);
      var _ :- Require(proofRegistry == ZERO_ADDRESS, IntegrationAlreadyConfigured);
      Ok(this.(proofRegistry := registry))
    }

    function SetInvoiceRegistry(sender: Address, registry: Address): Outcome<CoreState> {
      var _ :- Require(sender in roles.operators, UnauthorizedAccount);
      var _ :- Require(registry != ZERO_ADDRESS, ZeroAddress);
      var _ :- Require(invoiceRegistry == ZERO_ADDRESS, IntegrationAlreadyConfigured);
      Ok(this.(invoiceRegistry := registry))
    }

    function Register(sender: Address, externalAddressHash: Bytes32): Outcome<CoreState> {
      var _ :- Require(sender in approvedBorrowers, BorrowerNotApproved);
      var _ :- Require(externalAddressHash != ZERO_BYTES32, AccountAddressMismatch);
      var id := AccountId(sender, TEST_XRP, externalAddressHash);
      var _ :- Require(id !in accounts, AccountAlreadyExists);
      Ok(this.(accounts := accounts[id := ReserveAccount(sender, TEST_XRP, externalAddressHash, 0, 0, 0,
                                                         PendingApproval)]))
    }

    function Approve(sender: Address, id: Bytes32): Outcome<CoreState> {
      var _ :- Require(sender in roles.operators, UnauthorizedAccount);
      var _ :- Require(id in accounts, AccountNotFound);
      var _ :- Require(accounts[id].status == PendingApproval, AccountNotPendingApproval);
      Ok(this.(accounts := accounts[id := accounts[id].(status := Active)]))
    }

    function SetFrozen(sender: Address, id: Bytes32, frozen: bool): Outcome<CoreState> {
      var _ :- Require(sender in roles.operators, UnauthorizedAccount);
      var _ :- Require(id in accounts, AccountNotFound);
      var _ :- Require(frozen ==> accounts[id].status == Active, AccountNotActive);
      var _ :- Require(!frozen ==> accounts[id].status == Frozen, AccountNotFrozen);
      Ok(this.(accounts := accounts[id := accounts[id].(status := if frozen then Frozen else Active)]))
    }

    function ChangeRole(sender: Address, op: RoleOp): Outcome<CoreState> {
      var r :- roles.Change(sender, op);
      Ok(this.(roles := r))
    }

    function ConsumeProof(reg: RegistryState, self: Address, proofId: Bytes32): Outcome<RegistryState> {
      var _ :- Require(proofRegistry != ZERO_ADDRESS, ProofRegistryNotConfigured);
      var _ :- Require(proofId !in usedProofs, ProofAlreadyUsed);
      reg.Consume(self, proofId)
    }

    /** The state once a payment has been accepted: proof spent, ledger moved, event emitted. */
    function Recorded(id: Bytes32, p: Payment, incoming: bool, amount: uint256, balance: uint256): CoreState
      requires id in accounts
    {
      this.(usedProofs := usedProofs + {p.Id()},
            accounts := accounts[id := accounts[id].(balanceDrops := balance, lastExternalLedger := p.blockNumber,
                                                     lastAttestedAt := p.blockTimestamp)],
            log := log + [ReserveUpdate(id, p.Id(), incoming, amount, balance, p.blockNumber, p.blockTimestamp)])
    }

    /** Every check reads the state before the transaction; the writes come last, at once. */
    function SubmitPayment(reg: RegistryState, self: Address, sender: Address, env: Env, id: Bytes32, p: Payment)
      : (r: Outcome<(CoreState, RegistryState)>)
    {
      var _ :- Require(id in accounts, AccountNotFound);
      var a := accounts[id];
      var _ :- Require(a.status == Active, AccountNotActive);
      var _ :- Require(sender == a.borrower, UnauthorizedProofSubmitter);
      var _ :- Require(env.proofValid, InvalidFdcProof);
      var _ :- Require(p.sourceId == TEST_XRP, UnsupportedProofSource);
      var _ :- Require(p.proofOwner == a.borrower, ProofOwnerMismatch);
      var _ :- Require(p.status == XRPL_PAYMENT_SUCCESS, InvalidPaymentStatus);
      var reg' :- ConsumeProof(reg, self, p.Id());
      var _ :- Require(p.blockNumber > a.lastExternalLedger, OutOfOrderLedger);
      var incoming := p.receivingAddressHash == a.externalAddressHash;
      var _ :- Require(incoming != (p.sourceAddressHash == a.externalAddressHash), AccountAddressMismatch);
      var amount :- PositiveAmount(if incoming then p.receivedAmount else p.spentAmount);
      if incoming then
        var _ :- Require(a.balanceDrops + amount <= MAX_UINT256, Panic);
        Ok((Recorded(id, p, true, amount, a.balanceDrops + amount), reg'))
      else
        var _ :- Require(amount <= a.balanceDrops, InsufficientReserveBalance);
        Ok((Recorded(id, p, false, amount, a.balanceDrops - amount), reg'))
    }

    function SubmitInvoicePayment(reg: RegistryState, inv: InvoiceState, self: Address, sender: Address, env: Env,
                                  id: Bytes32, invoiceId: Bytes32, p: Payment)
      : (r: Outcome<(CoreState, RegistryState, InvoiceState)>)
    {
      var _ :- Require(id in accounts, AccountNotFound);
      var a := accounts[id];
      var _ :- Require(a.status == Active, AccountNotActive);
      var _ :- Require(sender == a.borrower, UnauthorizedProofSubmitter);
      var _ :- Require(invoiceRegistry != ZERO_ADDRESS, InvoiceRegistryNotConfigured);
      var _ :- Require(env.proofValid, InvalidFdcProof);
      var _ :- Require(p.sourceId == TEST_XRP, UnsupportedProofSource);
      var _ :- Require(p.proofOwner == a.borrower, ProofOwnerMismatch);
      var _ :- Require(p.status == XRPL_PAYMENT_SUCCESS, InvalidPaymentStatus);
      var _ :- Require(p.receivingAddressHash == a.externalAddressHash, AccountAddressMismatch);
      var amount :- PositiveAmount(p.receivedAmount);
      var _ :- Require(p.blockNumber > a.lastExternalLedger, OutOfOrderLedger);
      var reg' :- ConsumeProof(reg, self, p.Id());
      var inv' :- inv.Settle(self, invoiceId, p.Id(), p.sourceAddressHash, amount, p.blockTimestamp,
                             MemoHash(p.firstMemoData));
      var _ :- Require(a.balanceDrops + amount <= MAX_UINT256, Panic);
      Ok((Recorded(id, p, true, amount, a.balanceDrops + amount), reg', inv'))
    }
  }

  const NO_REGISTRY: RegistryState := RegistryState(Roles({}, {}), {}, [])
  const NO_INVOICES: InvoiceState := InvoiceState(ZERO_ADDRESS, map[], map[])

  class ReserveFlowCore {
    const address: Address
    var roles: Roles
    var proofRegistry: XrpProofRegistry?
    var invoiceRegistry: InvoiceRegistryContract?
    var approvedBorrowers: set<Address>
    var reserveAccounts: map<Bytes32, ReserveAccount>
    var usedProofs: set<Bytes32>
    var events: seq<ReserveUpdate>

    function State(): CoreState
      reads this
    {
      CoreState(roles, if proofRegistry == null then ZERO_ADDRESS else proofRegistry.address,
                if invoiceRegistry == null then ZERO_ADDRESS else invoiceRegistry.address,
                approvedBorrowers, reserveAccounts, usedProofs, events)
    }

    function Registry(): RegistryState
      reads this, proofRegistry
    {
      if proofRegistry == null then NO_REGISTRY else proofRegistry.State()
    }

    function Invoices(): InvoiceState
      reads this, invoiceRegistry
    {
      if invoiceRegistry == null then NO_INVOICES else invoiceRegistry.State()
    }

    /** Contracts live at non-zero addresses. */
    ghost predicate Placed()
      reads this
    {
      && (proofRegistry != null ==> proofRegistry.address != ZERO_ADDRESS)
      && (invoiceRegistry != null ==> invoiceRegistry.address != ZERO_ADDRESS)
    }

    constructor (self: Address, riskAdmin: Address)
      ensures address == self && proofRegistry == null && invoiceRegistry == null
      ensures State() == CoreState(Roles({riskAdmin}, {riskAdmin}), ZERO_ADDRESS, ZERO_ADDRESS, {}, map[], {}, [])
    {
      address := self;
      roles := Roles({riskAdmin}, {riskAdmin});
      proofRegistry, invoiceRegistry := null, null;
      approvedBorrowers, reserveAccounts, usedProofs, events := {}, map[], {}, [];
    }

    method SetBorrowerApproval(sender: Address, borrower: Address, approved: bool) returns (out: Outcome<()>)
      modifies this
      ensures Tracks(out, old(State().SetBorrowerApproval(sender, borrower, approved)), State())
      ensures proofRegistry == old(proofRegistry) && invoiceRegistry == old(invoiceRegistry)
      ensures out.Ok? <==> sender in old(roles.operators) && borrower != ZERO_ADDRESS
      ensures out.Ok? ==> (borrower in approvedBorrowers <==> approved)
      ensures forall b | b != borrower :: b in approvedBorrowers <==> b in old(approvedBorrowers)
    {
      var _ :- Require(sender in roles.operators, UnauthorizedAccount);
      var _ :- Require(borrower != ZERO_ADDRESS, ZeroAddress);
      approvedBorrowers := if approved then approvedBorrowers + {borrower} else approvedBorrowers - {borrower};
      return Ok(());
    }

    method SetProofRegistry(sender: Address, registry: XrpProofRegistry?) returns (out: Outcome<()>)
      requires registry != null ==> registry.address != ZERO_ADDRESS
      requires Placed()
      modifies this
      ensures Tracks(out, old(State().SetProofRegistry(sender,
                       if registry == null then ZERO_ADDRESS else registry.address)), State())
      ensures proofRegistry == if out.Ok? then registry else old(proofRegistry)
      ensures invoiceRegistry == old(invoiceRegistry)
      ensures out.Ok? <==> sender in old(roles.operators) && registry != null && old(proofRegistry) == null
    {
      var _ :- Require(sender in roles.operators, UnauthorizedAccount);
      var _ :- Require(registry != null, ZeroAddress);
      var _ :- Require(proofRegistry == null, IntegrationAlreadyConfigured);
      proofRegistry := registry;
      return Ok(());
    }

    method SetInvoiceRegistry(sender: Address, registry: InvoiceRegistryContract?) returns (out: Outcome<()>)
      requires registry != null ==> registry.address != ZERO_ADDRESS
      requires Placed()
      modifies this
      ensures Tracks(out, old(State().SetInvoiceRegistry(sender,
                       if registry == null then ZERO_ADDRESS else registry.address)), State())
      ensures invoiceRegistry == if out.Ok? then registry else old(invoiceRegistry)
      ensures proofRegistry == old(proofRegistry)
      ensures out.Ok? <==> sender in old(roles.operators) && registry != null && old(invoiceRegistry) == null
    {
      var _ :- Require(sender in roles.operators, UnauthorizedAccount);
      var _ :- Require(registry != null, ZeroAddress);
      var _ :- Require(invoiceRegistry == null, IntegrationAlreadyConfigured);
      invoiceRegistry := registry;
      return Ok(());
    }

    method RegisterReserveAccount(sender: Address, externalAddressHash: Bytes32) returns (out: Outcome<Bytes32>)
      modifies this
      ensures Tracks(out, old(State().Register(sender, externalAddressHash)), State())
      ensures out.Ok? ==> out.value == AccountId(sender, TEST_XRP, externalAddressHash)
      ensures proofRegistry == old(proofRegistry) && invoiceRegistry == old(invoiceRegistry)
    {
      var _ :- Require(sender in approvedBorrowers, BorrowerNotApproved);
      var _ :- Require(externalAddressHash != ZERO_BYTES32, AccountAddressMismatch);
      var accountId := AccountId(sender, TEST_XRP, externalAddressHash);
      var _ :- Require(accountId !in reserveAccounts, AccountAlreadyExists);
      reserveAccounts := reserveAccounts[accountId := ReserveAccount(sender, TEST_XRP, externalAddressHash, 0, 0, 0,
                                                                     PendingApproval)];
      return Ok(accountId);
    }

    method ApproveReserveAccount(sender: Address, accountId: Bytes32) returns (out: Outcome<()>)
      modifies this
      ensures Tracks(out, old(State().Approve(sender, accountId)), State())
      ensures proofRegistry == old(proofRegistry) && invoiceRegistry == old(invoiceRegistry)
      ensures out.Ok? ==>
        old(reserveAccounts)[accountId].status == PendingApproval && reserveAccounts[accountId].status == Active
    {
      var _ :- Require(sender in roles.operators, UnauthorizedAccount);
      var _ :- Require(accountId in reserveAccounts, AccountNotFound);
      var _ :- Require(reserveAccounts[accountId].status == PendingApproval, AccountNotPendingApproval);
      reserveAccounts := reserveAccounts[accountId := reserveAccounts[accountId].(status := Active)];
      return Ok(());
    }

    method SetReserveAccountFrozen(sender: Address, accountId: Bytes32, frozen: bool) returns (out: Outcome<()>)
      modifies this
      ensures Tracks(out, old(State().SetFrozen(sender, accountId, frozen)), State())
      ensures proofRegistry == old(proofRegistry) && invoiceRegistry == old(invoiceRegistry)
      ensures out.Ok? <==>
        && sender in old(roles.operators) && accountId in old(reserveAccounts)
        && old(reserveAccounts)[accountId].status == (if frozen then Active else Frozen)
      ensures out.Ok? ==> reserveAccounts == old(reserveAccounts)[accountId :=
        old(reserveAccounts)[accountId].(status := if frozen then Frozen else Active)]
    {
      var _ :- Require(sender in roles.operators, UnauthorizedAccount);
      var _ :- Require(accountId in reserveAccounts, AccountNotFound);
      if frozen {
        var _ :- Require(reserveAccounts[accountId].status == Active, AccountNotActive);
        reserveAccounts := reserveAccounts[accountId := reserveAccounts[accountId].(status := Frozen)];
      } else {
        var _ :- Require(reserveAccounts[accountId].status == Frozen, AccountNotFrozen);
        reserveAccounts := reserveAccounts[accountId := reserveAccounts[accountId].(status := Active)];
      }
      return Ok(());
    }

    method ChangeRole(sender: Address, op: RoleOp) returns (out: Outcome<()>)
      modifies this
      ensures Tracks(out, old(State().ChangeRole(sender, op)), State())
      ensures proofRegistry == old(proofRegistry) && invoiceRegistry == old(invoiceRegistry)
    {
      roles :- roles.Change(sender, op);
      return Ok(());
    }

    method ConsumeProof(proofId: Bytes32) returns (out: Outcome<()>)
      requires Placed()
      modifies this`usedProofs, proofRegistry
      ensures Tracks(out, old(State().ConsumeProof(Registry(), address, proofId)), Registry())
      ensures out.Ok? ==> usedProofs == old(usedProofs) + {proofId}
    {
      var _ :- Require(proofRegistry != null, ProofRegistryNotConfigured);
      var _ :- Require(proofId !in usedProofs, ProofAlreadyUsed);
      var _ :- proofRegistry.Consume(address, proofId);
      usedProofs := usedProofs + {proofId};
      return Ok(());
    }

    /** Spends the proof, then moves the balance and the two ledger marks, checking in between. */
    method SubmitXrpPaymentProof(sender: Address, env: Env, accountId: Bytes32, p: Payment) returns (out: Outcome<()>)
      requires Placed()
      modifies this, proofRegistry
      ensures Tracks(out, old(State().SubmitPayment(Registry(), address, sender, env, accountId, p)),
                     (State(), Registry()))
      ensures proofRegistry == old(proofRegistry) && invoiceRegistry == old(invoiceRegistry)
    {
      var _ :- Require(accountId in reserveAccounts, AccountNotFound);
      var account := reserveAccounts[accountId];
      var _ :- Require(account.status == Active, AccountNotActive);
      var _ :- Require(sender == account.borrower, UnauthorizedProofSubmitter);
      var _ :- Require(env.proofValid, InvalidFdcProof);
      var _ :- Require(p.sourceId == TEST_XRP, UnsupportedProofSource);
      var _ :- Require(p.proofOwner == account.borrower, ProofOwnerMismatch);
      var _ :- Require(p.status == XRPL_PAYMENT_SUCCESS, InvalidPaymentStatus);
      var proofId := p.Id();
      var _ :- ConsumeProof(proofId);
      var _ :- Require(p.blockNumber > reserveAccounts[accountId].lastExternalLedger, OutOfOrderLedger);
      var incoming := p.receivingAddressHash == account.externalAddressHash;
      var outgoing := p.sourceAddressHash == account.externalAddressHash;
      var _ :- Require(incoming != outgoing, AccountAddressMismatch);
      if incoming {
        var amountDrops :- PositiveAmount(p.receivedAmount);
        var _ :- Require(reserveAccounts[accountId].balanceDrops + amountDrops <= MAX_UINT256, Panic);
        WriteUpdate(accountId, p, true, amountDrops, reserveAccounts[accountId].balanceDrops + amountDrops);
      } else {
        var amountDrops :- PositiveAmount(p.spentAmount);
        var _ :- Require(amountDrops <= reserveAccounts[accountId].balanceDrops, InsufficientReserveBalance);
        WriteUpdate(accountId, p, false, amountDrops, reserveAccounts[accountId].balanceDrops - amountDrops);
      }
      return Ok(());
    }

    /** Spends the proof and settles the invoice before it moves the account. */
    method SubmitInvoicePaymentProof(sender: Address, env: Env, accountId: Bytes32, invoiceId: Bytes32, p: Payment)
      returns (out: Outcome<()>)
      requires Placed()
      modifies this, proofRegistry, invoiceRegistry
      ensures Tracks(out, old(State().SubmitInvoicePayment(Registry(), Invoices(), address, sender, env, accountId,
                                                           invoiceId, p)),
                     (State(), Registry(), Invoices()))
      ensures proofRegistry == old(proofRegistry) && invoiceRegistry == old(invoiceRegistry)
    {
      // Names the specified outcome for the prover.
      ghost var spec := State().SubmitInvoicePayment(Registry(), Invoices(), address, sender, env, accountId, invoiceId,
                                                     p);
      var _ :- Require(accountId in reserveAccounts, AccountNotFound);
      var account := reserveAccounts[accountId];
      var _ :- Require(account.status == Active, AccountNotActive);
      var _ :- Require(sender == account.borrower, UnauthorizedProofSubmitter);
      var _ :- Require(invoiceRegistry != null, InvoiceRegistryNotConfigured);
      var _ :- Require(env.proofValid, InvalidFdcProof);
      var _ :- Require(p.sourceId == TEST_XRP, UnsupportedProofSource);
      var _ :- Require(p.proofOwner == account.borrower, ProofOwnerMismatch);
      var _ :- Require(p.status == XRPL_PAYMENT_SUCCESS, InvalidPaymentStatus);
      var _ :- Require(p.receivingAddressHash == account.externalAddressHash, AccountAddressMismatch);
      var amountDrops :- PositiveAmount(p.receivedAmount);
      var proofId := p.Id();
      var _ :- Require(p.blockNumber > account.lastExternalLedger, OutOfOrderLedger);
      var _ :- ConsumeProof(proofId);
      var _ :- invoiceRegistry.SettleFromCore(address, invoiceId, proofId, p.sourceAddressHash, amountDrops,
                                              p.blockTimestamp, MemoHash(p.firstMemoData));
      var _ :- Require(reserveAccounts[accountId].balanceDrops + amountDrops <= MAX_UINT256, Panic);
      WriteUpdate(accountId, p, true, amountDrops, reserveAccounts[accountId].balanceDrops + amountDrops);
      return Ok(());
    }

    /** The balance, then the two ledger marks, then the event that reports all three. */
    method WriteUpdate(accountId: Bytes32, p: Payment, incoming: bool, amountDrops: uint256, balance: uint256)
      requires accountId in reserveAccounts
      modifies this`reserveAccounts, this`events
      ensures reserveAccounts == old(reserveAccounts)[accountId := old(reserveAccounts)[accountId]
                .(balanceDrops := balance, lastExternalLedger := p.blockNumber, lastAttestedAt := p.blockTimestamp)]
      ensures events == old(events) + [ReserveUpdate(accountId, p.Id(), incoming, amountDrops, balance,
                                                     p.blockNumber, p.blockTimestamp)]
    {
      reserveAccounts := reserveAccounts[accountId := reserveAccounts[accountId].(balanceDrops := balance)];
      reserveAccounts := reserveAccounts[accountId := reserveAccounts[accountId].(lastExternalLedger := p.blockNumber)];
      reserveAccounts := reserveAccounts[accountId := reserveAccounts[accountId].(lastAttestedAt := p.blockTimestamp)];
      var account := reserveAccounts[accountId];
      events := events + [ReserveUpdate(accountId, p.Id(), incoming, amountDrops, account.balanceDrops,
                                        account.lastExternalLedger, account.lastAttestedAt)];
      assert reserveAccounts == old(reserveAccounts)[accountId := account];
    }

    method Rollback(saved: CoreState)
      requires saved.proofRegistry == State().proofRegistry && saved.invoiceRegistry == State().invoiceRegistry
      modifies this
      ensures State() == saved
      ensures proofRegistry == old(proofRegistry) && invoiceRegistry == old(invoiceRegistry)
    {
      roles, approvedBorrowers := saved.roles, saved.approvedBorrowers;
      reserveAccounts, usedProofs, events := saved.accounts, saved.usedProofs, saved.log;
    }
  }
}
