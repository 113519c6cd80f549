/** CreditVault.sol: the rfUSD liquidity and the principal of each credit line. */
module CreditVault {
  import opened Evm
  import opened AccessControl
  import opened MockUsd
  import Core = ReserveFlowCore
  import Risk = RiskEngine

  datatype CreditPosition = CreditPosition(
    reserveAccountId: Bytes32, principalWad: uint256, openedAt: uint64, lastRiskSyncAt: uint64)

  datatype VaultEvent =
    | Borrowed(borrower: Address, accountId: Bytes32, amountWad: uint256, principalWad: uint256,
               creditLimitWad: uint256)
    | Repaid(borrower: Address, accountId: Bytes32, amountWad: uint256, principalWad: uint256)
    | XrpRepaid(borrower: Address, accountId: Bytes32, amountWad: uint256, principalWad: uint256)

  function RequireBorrowable(status: Risk.RiskStatus): Outcome<()> {
    match status
    case Healthy => Ok(())
    case PriceStale => Revert(StalePrice)
    case ReserveStale => Revert(StaleReserve)
    case Frozen => Revert(AccountFrozen)
    case _ => Revert(CreditNotHealthy)
  }

  datatype VaultState = VaultState(
    roles: Roles, token: Address, repaymentRouter: Address, borrowingPaused: bool,
    positions: map<Address, CreditPosition>, pending: map<Address, uint256>, log: seq<VaultEvent>)
  {
    function Principal(b: Address): nat { if b in positions then positions[b].principalWad else 0 }
    function Pending(b: Address): nat { Lookup(pending, b) }

    function SetToken(sender: Address, newToken: Address): Outcome<VaultState> {
      var _ :- Require(sender in roles.operators, UnauthorizedAccount);
      var _ :- Require(newToken != ZERO_ADDRESS, ZeroAddress);
      var _ :- Require(token == ZERO_ADDRESS, TokenAlreadySet);
      Ok(this.(token := newToken))
    }

    function SetBorrowingPaused(sender: Address, paused: bool): Outcome<VaultState> {
      var _ :- Require(sender in roles.operators, UnauthorizedAccount);
      Ok(this.(borrowingPaused := paused))
    }

    function SetRepaymentRouter(sender: Address, router: Address): Outcome<VaultState> {
      var _ :- Require(sender in roles.operators, UnauthorizedAccount);
      var _ :- Require(router != ZERO_ADDRESS, ZeroAddress);
      var _ :- Require(repaymentRouter == ZERO_ADDRESS, RepaymentRouterAlreadySet);
      Ok(this.(repaymentRouter := router))
    }

    function ChangeRole(sender: Address, op: RoleOp): Outcome<VaultState> {
      var r :- roles.Change(sender, op);
      Ok(this.(roles := r))
    }

    function OpenCreditLine(accounts: map<Bytes32, Core.ReserveAccount>, sender: Address, now: uint64, id: Bytes32)
      : Outcome<VaultState>
    {
      var _ :- Require(sender !in positions, CreditLineAlreadyOpen);
      var _ :- Require(id in accounts, AccountNotFound);
      var _ :- Require(accounts[id].borrower == sender, UnauthorizedReserveAccount);
      Ok(this.(positions := positions[sender := CreditPosition(id, 0, now, 0)]))
    }

    function Borrow(tok: TokenState, risk: Risk.RiskState, accounts: map<Bytes32, Core.ReserveAccount>, self: Address,
                    sender: Address, env: Env, amount: uint256): Outcome<(VaultState, TokenState)>
    {
      var _ :- Require(amount != 0, ZeroAmount);
      var _ :- Require(!borrowingPaused, BorrowingPaused);
      var _ :- Require(token != ZERO_ADDRESS, TokenNotSet);
      var _ :- Require(sender in positions, CreditLineNotOpen);
      var position := positions[sender];
      var snapshot :- risk.GetSnapshot(accounts, env, position.reserveAccountId, position.principalWad);
      var _ :- RequireBorrowable(snapshot.status);
      var debt := position.principalWad + amount;
      var _ :- Require(debt <= MAX_UINT256, Panic);
      var _ :- Require(debt <= snapshot.creditLimitWad, CreditLimitExceeded);
      var tok' :- tok.Move(self, sender, amount);
      Ok((this.(positions := positions[sender := position.(principalWad := debt, lastRiskSyncAt := env.now)],
                log := log + [Borrowed(sender, position.reserveAccountId, amount, debt, snapshot.creditLimitWad)]),
          tok'))
    }

    function Repay(tok: TokenState, self: Address, sender: Address, now: uint64, amount: uint256)
      : Outcome<(VaultState, TokenState)>
    {
      var _ :- Require(amount != 0, ZeroAmount);
      var _ :- Require(token != ZERO_ADDRESS, TokenNotSet);
      var _ :- Require(sender in positions, CreditLineNotOpen);
      var position := positions[sender];
      var _ :- Require(amount <= position.principalWad, ExcessRepayment);
      var _ :- Require(Pending(sender) <= position.principalWad, Panic);
      var _ :- Require(amount <= position.principalWad - Pending(sender), RepaymentReserved);
      var _ :- Require(tok.Allowance(sender, self) >= amount, InsufficientRfUsdAllowance);
      var _ :- Require(tok.BalanceOf(sender) >= amount, InsufficientRfUsdBalance);
      var tok' :- tok.TransferFrom(self, sender, self, amount);
      var e := Repaid(sender, position.reserveAccountId, amount, position.principalWad - amount);
      Ok((Reduced(sender, now, amount, e), tok'))
    }

    function SyncRisk(risk: Risk.RiskState, accounts: map<Bytes32, Core.ReserveAccount>, sender: Address, env: Env)
      : Outcome<VaultState>
    {
      var _ :- Require(sender in positions, CreditLineNotOpen);
      var snapshot :- risk.GetSnapshot(accounts, env, positions[sender].reserveAccountId,
                                       positions[sender].principalWad);
      Ok(this.(positions := positions[sender := positions[sender].(lastRiskSyncAt := env.now)]))
    }

    function SettleXrp(sender: Address, now: uint64, b: Address, amount: uint256): Outcome<VaultState> {
      var _ :- Require(sender == repaymentRouter, UnauthorizedRepaymentRouter);
      var _ :- Require(amount != 0, ZeroAmount);
      var _ :- Require(b in positions, CreditLineNotOpen);
      var _ :- Require(amount <= Pending(b), RepaymentReserved);
      var _ :- Require(amount <= positions[b].principalWad, ExcessRepayment);
      Ok(this.(pending := pending[b := Pending(b) - amount])
         .Reduced(b, now, amount,
                  XrpRepaid(b, positions[b].reserveAccountId, amount, positions[b].principalWad - amount)))
    }

    function ReserveXrp(sender: Address, b: Address, amount: uint256): Outcome<VaultState> {
      var _ :- Require(sender == repaymentRouter, UnauthorizedRepaymentRouter);
      var _ :- Require(b in positions, CreditLineNotOpen);
      var _ :- Require(Pending(b) <= positions[b].principalWad, Panic);
      var _ :- Require(amount != 0 && amount <= positions[b].principalWad - Pending(b), RepaymentReserved);
      Ok(this.(pending := pending[b := Pending(b) + amount]))
    }

    function ReleaseXrp(sender: Address, b: Address, amount: uint256): Outcome<VaultState> {
      var _ :- Require(sender == repaymentRouter, UnauthorizedRepaymentRouter);
      var _ :- Require(amount <= Pending(b), RepaymentReserved);
      Ok(this.(pending := pending[b := Pending(b) - amount]))
    }

    function Reduced(b: Address, now: uint64, amount: uint256, e: VaultEvent): VaultState
      requires b in positions && amount <= positions[b].principalWad
    {
      this.(positions := positions[b := positions[b].(principalWad := positions[b].principalWad - amount,
                                                      lastRiskSyncAt := now)],
            log := log + [e])
    }
  }

  class CreditVault {
    const address: Address
    const reserveLedger: Core.ReserveFlowCore
    const riskEngine: Risk.RiskEngine
    var roles: Roles
    var token: MockUSD?
    var repaymentRouter: Address
    var borrowingPaused: bool
    var positions: map<Address, CreditPosition>
    var pendingXrpRepayments: map<Address, uint256>
    var events: seq<VaultEvent>

    function State(): VaultState
      reads this
    {
      VaultState(roles, if token == null then ZERO_ADDRESS else token.address, repaymentRouter, borrowingPaused,
                 positions, pendingXrpRepayments, events)
    }

    function Token(): TokenState
      reads this, token
    {
      if token == null then NO_TOKEN else token.State()
    }

    ghost predicate Placed()
      reads this, riskEngine
    {
      && (token != null ==> token.address != ZERO_ADDRESS)
      && riskEngine.reserveLedger == reserveLedger
    }

    constructor (self: Address, riskAdmin: Address, reserveLedger: Core.ReserveFlowCore, riskEngine: Risk.RiskEngine)
      ensures address == self && this.reserveLedger == reserveLedger && this.riskEngine == riskEngine && token == null
      ensures State() == VaultState(Roles({riskAdmin}, {riskAdmin}), ZERO_ADDRESS, ZERO_ADDRESS, false, map[], map[],
                                    [])
    {
      address := self;
      this.reserveLedger, this.riskEngine := reserveLedger, riskEngine;
      roles := Roles({riskAdmin}, {riskAdmin});
      token, repaymentRouter, borrowingPaused := null, ZERO_ADDRESS, false;
      positions, pendingXrpRepayments, events := map[], map[], [];
    }

    method SetToken(sender: Address, newToken: MockUSD?) returns (out: Outcome<()>)
      requires Placed() && (newToken != null ==> newToken.address != ZERO_ADDRESS)
      modifies this
      ensures Tracks(out, old(State().SetToken(sender, if newToken == null then ZERO_ADDRESS else newToken.address)),
                     State())
      ensures token == if out.Ok? then newToken else old(token)
      ensures out.Ok? <==> sender in old(roles.operators) && newToken != null && old(token) == null
    {
      var _ :- Require(sender in roles.operators, UnauthorizedAccount);
      var _ :- Require(newToken != null, ZeroAddress);
      var _ :- Require(token == null, TokenAlreadySet);
      token := newToken;
      return Ok(());
    }

    method SetBorrowingPaused(sender: Address, paused: bool) returns (out: Outcome<()>)
      modifies this
      ensures Tracks(out, old(State().SetBorrowingPaused(sender, paused)), State())
      ensures token == old(token)
      ensures out.Ok? <==> sender in old(roles.operators)
      ensures borrowingPaused == if out.Ok? then paused else old(borrowingPaused)
    {
      var _ :- Require(sender in roles.operators, UnauthorizedAccount);
      borrowingPaused := paused;
      return Ok(());
    }

    method SetRepaymentRouter(sender: Address, router: Address) returns (out: Outcome<()>)
      modifies this
      ensures Tracks(out, old(State().SetRepaymentRouter(sender, router)), State())
      ensures token == old(token)
      ensures out.Ok? <==>
        sender in old(roles.operators) && router != ZERO_ADDRESS && old(repaymentRouter) == ZERO_ADDRESS
      ensures repaymentRouter == if out.Ok? then router else old(repaymentRouter)
    {
      var _ :- Require(sender in roles.operators, UnauthorizedAccount);
      var _ :- Require(router != ZERO_ADDRESS, ZeroAddress);
      var _ :- Require(repaymentRouter == ZERO_ADDRESS, RepaymentRouterAlreadySet);
      repaymentRouter := router;
      return Ok(());
    }

    method ChangeRole(sender: Address, op: RoleOp) returns (out: Outcome<()>)
      modifies this
      ensures Tracks(out, old(State().ChangeRole(sender, op)), State())
      ensures token == old(token)
    {
      roles :- roles.Change(sender, op);
      return Ok(());
    }

    method OpenCreditLine(sender: Address, now: uint64, accountId: Bytes32) returns (out: Outcome<()>)
      modifies this
      ensures Tracks(out, old(State().OpenCreditLine(reserveLedger.reserveAccounts, sender, now, accountId)), State())
      ensures token == old(token)
    {
      var _ :- Require(sender !in positions, CreditLineAlreadyOpen);
      var _ :- Require(accountId in reserveLedger.reserveAccounts, AccountNotFound);
      var _ :- Require(reserveLedger.reserveAccounts[accountId].borrower == sender, UnauthorizedReserveAccount);
      positions := positions[sender := CreditPosition(accountId, 0, now, 0)];
      return Ok(());
    }

    /** The transfer goes out before the principal is written. */
    method Borrow(sender: Address, env: Env, amountWad: uint256) returns (out: Outcome<()>)
      requires Placed()
      modifies this, token
      ensures Tracks(out, old(State().Borrow(Token(), riskEngine.State(), reserveLedger.reserveAccounts, address,
                                             sender, env, amountWad)),
                     (State(), Token()))
      ensures token == old(token)
    {
      var _ :- Require(amountWad != 0, ZeroAmount);
      var _ :- Require(!borrowingPaused, BorrowingPaused);
      var _ :- Require(token != null, TokenNotSet);
      var _ :- Require(sender in positions, CreditLineNotOpen);
      var snapshot :- riskEngine.GetRiskSnapshot(env, positions[sender].reserveAccountId,
                                                 positions[sender].principalWad);
      var _ :- RequireBorrowable(snapshot.status);
      var _ :- Require(positions[sender].principalWad + amountWad <= MAX_UINT256, Panic);
      var requestedDebtWad := positions[sender].principalWad + amountWad;
      var _ :- Require(requestedDebtWad <= snapshot.creditLimitWad, CreditLimitExceeded);
      var _ :- token.Transfer(address, sender, amountWad);
      positions := positions[sender := positions[sender].(principalWad := requestedDebtWad)];
      positions := positions[sender := positions[sender].(lastRiskSyncAt := env.now)];
      events := events + [Borrowed(sender, positions[sender].reserveAccountId, amountWad, requestedDebtWad,
                                   snapshot.creditLimitWad)];
      assert positions == old(positions)[sender := positions[sender]];
      return Ok(());
    }

    method Repay(sender: Address, now: uint64, amountWad: uint256) returns (out: Outcome<()>)
      requires Placed()
      modifies this, token
      ensures Tracks(out, old(State().Repay(Token(), address, sender, now, amountWad)), (State(), Token()))
      ensures token == old(token)
    {
      var _ :- Require(amountWad != 0, ZeroAmount);
      var _ :- Require(token != null, TokenNotSet);
      var _ :- Require(sender in positions, CreditLineNotOpen);
      var _ :- Require(amountWad <= positions[sender].principalWad, ExcessRepayment);
      var _ :- Require(Lookup(pendingXrpRepayments, sender) <= positions[sender].principalWad, Panic);
      var available := positions[sender].principalWad - Lookup(pendingXrpRepayments, sender);
      var _ :- Require(amountWad <= available, RepaymentReserved);
      var _ :- Require(Lookup(token.allowances, (sender, address)) >= amountWad, InsufficientRfUsdAllowance);
      var _ :- Require(Lookup(token.balances, sender) >= amountWad, InsufficientRfUsdBalance);
      var _ :- token.TransferFrom(address, sender, address, amountWad);
      Reduce(sender, now, amountWad);
      events := events + [Repaid(sender, positions[sender].reserveAccountId, amountWad,
                                 positions[sender].principalWad)];
      return Ok(());
    }

    method SyncRisk(sender: Address, env: Env) returns (out: Outcome<()>)
      requires Placed()
      modifies this
      ensures Tracks(out, old(State().SyncRisk(riskEngine.State(), reserveLedger.reserveAccounts, sender, env)),
                     State())
      ensures token == old(token)
    {
      var _ :- Require(sender in positions, CreditLineNotOpen);
      var snapshot :- riskEngine.GetRiskSnapshot(env, positions[sender].reserveAccountId,
                                                 positions[sender].principalWad);
      positions := positions[sender := positions[sender].(lastRiskSyncAt := env.now)];
      return Ok(());
    }

    method SettleXrpRepayment(sender: Address, now: uint64, borrower: Address, amountWad: uint256)
      returns (out: Outcome<()>)
      modifies this
      ensures Tracks(out, old(State().SettleXrp(sender, now, borrower, amountWad)), State())
      ensures token == old(token)
    {
      var _ :- Require(sender == repaymentRouter, UnauthorizedRepaymentRouter);
      var _ :- Require(amountWad != 0, ZeroAmount);
      var _ :- Require(borrower in positions, CreditLineNotOpen);
      var reserved := Lookup(pendingXrpRepayments, borrower);
      var _ :- Require(amountWad <= reserved, RepaymentReserved);
      var _ :- Require(amountWad <= positions[borrower].principalWad, ExcessRepayment);
      pendingXrpRepayments := pendingXrpRepayments[borrower := reserved - amountWad];
      Reduce(borrower, now, amountWad);
      events := events + [XrpRepaid(borrower, positions[borrower].reserveAccountId, amountWad,
                                    positions[borrower].principalWad)];
      return Ok(());
    }

    method ReserveXrpRepayment(sender: Address, borrower: Address, amountWad: uint256) returns (out: Outcome<()>)
      modifies this
      ensures Tracks(out, old(State().ReserveXrp(sender, borrower, amountWad)), State())
      ensures token == old(token)
    {
      var _ :- Require(sender == repaymentRouter, UnauthorizedRepaymentRouter);
      var _ :- Require(borrower in positions, CreditLineNotOpen);
      var reserved := Lookup(pendingXrpRepayments, borrower);
      var _ :- Require(reserved <= positions[borrower].principalWad, Panic);
      var available := positions[borrower].principalWad - reserved;
      var _ :- Require(amountWad != 0 && amountWad <= available, RepaymentReserved);
      pendingXrpRepayments := pendingXrpRepayments[borrower := reserved + amountWad];
      return Ok(());
    }

    method ReleaseXrpRepayment(sender: Address, borrower: Address, amountWad: uint256) returns (out: Outcome<()>)
      modifies this
      ensures Tracks(out, old(State().ReleaseXrp(sender, borrower, amountWad)), State())
      ensures token == old(token)
    {
      var _ :- Require(sender == repaymentRouter, UnauthorizedRepaymentRouter);
      var reserved := Lookup(pendingXrpRepayments, borrower);
      var _ :- Require(amountWad <= reserved, RepaymentReserved);
      pendingXrpRepayments := pendingXrpRepayments[borrower := reserved - amountWad];
      return Ok(());
    }

    method Reduce(borrower: Address, now: uint64, amountWad: uint256)
      requires borrower in positions && amountWad <= positions[borrower].principalWad
      modifies this`positions
      ensures positions == old(positions)[borrower := old(positions)[borrower]
                .(principalWad := old(positions)[borrower].principalWad - amountWad, lastRiskSyncAt := now)]
    {
      var principal := positions[borrower].principalWad;
      positions := positions[borrower := positions[borrower].(principalWad := principal - amountWad)];
      positions := positions[borrower := positions[borrower].(lastRiskSyncAt := now)];
      assert positions == old(positions)[borrower := positions[borrower]];
    }

    method Rollback(saved: VaultState)
      requires saved.token == State().token
      modifies this
      ensures State() == saved && token == old(token)
    {
      roles, repaymentRouter, borrowingPaused := saved.roles, saved.repaymentRouter, saved.borrowingPaused;
      positions, pendingXrpRepayments, events := saved.positions, saved.pending, saved.log;
    }
  }
}
