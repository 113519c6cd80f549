/** Credit lines: who owns the reserve behind a debt, and what every borrow was allowed by. */
module CreditLines {
  import opened Evm
  import opened CreditVault
  import opened Protocol
  import opened Wiring
  import opened Ledger
  import opened CreditMath
  import Core = ReserveFlowCore
  import Risk = RiskEngine
  import Payments
  import Reservations

  // ---- Ownership ----------------------------------------------------------------

  ghost predicate AccountsHashed(c: Core.CoreState) {
    forall id | id in c.accounts ::
      id == AccountId(c.accounts[id].borrower, TEST_XRP, c.accounts[id].externalAddressHash)
  }

  ghost predicate LineOwned(w: World, b: Address) {
    b in w.vault.positions ==>
      && w.vault.positions[b].reserveAccountId in w.core.accounts
      && w.core.accounts[w.vault.positions[b].reserveAccountId].borrower == b
  }

  ghost predicate LinesOwned(w: World) {
    AccountsHashed(w.core) && forall b: Address :: LineOwned(w, b)
  }

  lemma CoreKeepsOwners(w: World, tx: Tx, c: CoreCall)
    requires AccountsHashed(w.core) && StepCore(w, tx, c).Ok?
    ensures var core' := StepCore(w, tx, c).value.core;
      AccountsHashed(core') && forall id | id in w.core.accounts ::
        && id in core'.accounts && core'.accounts[id].borrower == w.core.accounts[id].borrower
        && core'.accounts[id].externalAddressHash == w.core.accounts[id].externalAddressHash
  {}

  lemma VaultKeepsOwned(w: World, tx: Tx, c: VaultCall, b: Address)
    requires LineOwned(w, b) && StepVault(w, tx, c).Ok?
    ensures LineOwned(StepVault(w, tx, c).value, b)
  {}

  lemma RouterKeepsLines(w: World, tx: Tx, c: RouterCall, b: Address)
    requires LineOwned(w, b) && StepRouter(w, tx, c).Ok?
    ensures LineOwned(StepRouter(w, tx, c).value, b)
  {}

  lemma LinesOwnedStep(w: World, tx: Tx)
    requires Wired(w) && LinesOwned(w)
    ensures LinesOwned(Next(w, tx))
  {
    if tx.call.ToCore? {
      if Step(w, tx).Ok? {
        CoreFrame(w, tx, tx.call.core);
        CoreKeepsOwners(w, tx, tx.call.core);
        forall b: Address ensures LineOwned(Next(w, tx), b) { assert LineOwned(w, b); }
      }
    } else {
      forall b: Address ensures LineOwned(Next(w, tx), b) { LineOwnedStep(w, tx, b); }
      AccountsStay(w, tx);
    }
  }

  lemma AccountsStay(w: World, tx: Tx)
    requires Wired(w) && !tx.call.ToCore?
    ensures Next(w, tx).core == w.core
  {
    if Step(w, tx).Ok? {
      match tx.call
      case ToVault(c) => VaultFrame(w, tx, c);
      case ToRouter(c) => RouterFrame(w, tx, c);
      case _ => {}
    }
  }

  lemma LineOwnedStep(w: World, tx: Tx, b: Address)
    requires Wired(w) && LineOwned(w, b) && !tx.call.ToCore?
    ensures LineOwned(Next(w, tx), b)
  {
    if Step(w, tx).Ok? {
      match tx.call
      case ToVault(c) => VaultKeepsOwned(w, tx, c, b);
      case ToRouter(c) => RouterKeepsLines(w, tx, c, b);
      case _ => {}
    }
  }

  /** Two borrowers never draw on the same reserve account. */
  lemma LinesInjective(w: World, b1: Address, b2: Address)
    requires LinesOwned(w) && b1 in w.vault.positions && b2 in w.vault.positions
    requires w.vault.positions[b1].reserveAccountId == w.vault.positions[b2].reserveAccountId
    ensures b1 == b2
  {
    assert LineOwned(w, b1) && LineOwned(w, b2);
  }

  // ---- Principal stays under the limit it was granted at ------------------------

  /** The limit computed at `b`'s last successful borrow, 0 if there was none. */
  function LastLimit(log: seq<VaultEvent>, b: Address): nat {
    if log == [] then 0 else
      var e := log[|log| - 1];
      if e.Borrowed? && e.borrower == b then e.creditLimitWad else LastLimit(log[..|log| - 1], b)
  }

  ghost predicate WithinLimit(v: VaultState, b: Address) { v.Principal(b) <= LastLimit(v.log, b) }

  lemma VaultKeepsLimit(w: World, tx: Tx, c: VaultCall, b: Address)
    requires Wired(w) && tx.sender != w.at.repaymentRouter && WithinLimit(w.vault, b) && StepVault(w, tx, c).Ok?
    ensures WithinLimit(StepVault(w, tx, c).value.vault, b)
  {
    match c
    case Borrow(amount) => BorrowKeepsLimit(w, tx, amount, b);
    case Repay(amount) => RepayKeepsLimit(w, tx, amount, b);
    case _ => {}
  }

  lemma BorrowKeepsLimit(w: World, tx: Tx, amount: uint256, b: Address)
    requires WithinLimit(w.vault, b) && StepVault(w, tx, Borrow(amount)).Ok?
    ensures WithinLimit(StepVault(w, tx, Borrow(amount)).value.vault, b)
  {
    var v' := StepVault(w, tx, Borrow(amount)).value.vault;
    assert v'.log[..|v'.log| - 1] == w.vault.log;
  }

  lemma RepayKeepsLimit(w: World, tx: Tx, amount: uint256, b: Address)
    requires WithinLimit(w.vault, b) && StepVault(w, tx, Repay(amount)).Ok?
    ensures WithinLimit(StepVault(w, tx, Repay(amount)).value.vault, b)
  {
    var v' := StepVault(w, tx, Repay(amount)).value.vault;
    assert v'.log[..|v'.log| - 1] == w.vault.log;
  }

  lemma RouterKeepsLimit(w: World, tx: Tx, c: RouterCall, b: Address)
    requires Reservations.IntentsFresh(w) && WithinLimit(w.vault, b) && StepRouter(w, tx, c).Ok?
    ensures WithinLimit(StepRouter(w, tx, c).value.vault, b)
  {
    Reservations.RouterEffect(w, tx, c);
    Reservations.RouterVaultEffect(w, tx, c);
    var v' := StepRouter(w, tx, c).value.vault;
    if c.SettleRepaymentWithProof? { assert v'.log[..|v'.log| - 1] == w.vault.log; }
  }

  lemma WithinLimitStep(w: World, tx: Tx, b: Address)
    requires Wired(w) && Reservations.IntentsFresh(w) && tx.External(w.at) && WithinLimit(w.vault, b)
    ensures WithinLimit(Next(w, tx).vault, b)
  {
    assert w.at.repaymentRouter in w.at.All();
    if Step(w, tx).Ok? {
      match tx.call
      case ToCore(c) => CoreFrame(w, tx, c);
      case ToVault(c) => VaultKeepsLimit(w, tx, c, b);
      case ToRouter(c) => RouterKeepsLimit(w, tx, c, b);
      case _ => {}
    }
  }

  // ---- One borrow ---------------------------------------------------------------

  /** A successful borrow passed every gate of the snapshot it read. */
  lemma BorrowGates(w: World, tx: Tx, amount: uint256)
    requires StepVault(w, tx, Borrow(amount)).Ok?
    ensures var w' := StepVault(w, tx, Borrow(amount)).value; var b := tx.sender;
      && b in w.vault.positions && w.vault.positions[b].reserveAccountId in w.core.accounts
      && var (id, debt) := (w.vault.positions[b].reserveAccountId, w.vault.positions[b].principalWad);
      && var s := w.risk.GetSnapshot(w.core.accounts, tx.env, id, debt);
      && s.Ok? && s.value.status == Risk.Healthy && !w.vault.borrowingPaused
      && w'.vault.Principal(b) == debt + amount <= s.value.creditLimitWad
      && w'.vault.log == w.vault.log + [Borrowed(b, id, amount, debt + amount, s.value.creditLimitWad)]
      && w' == w.(vault := w'.vault, token := w'.token) && b in w'.vault.positions
        && w'.vault.positions[b].reserveAccountId == id
  {}

  /** Behind every borrow stands an ACTIVE account of the borrower whose latest accepted payment is fresh. */
  lemma BorrowBacked(w: World, tx: Tx, amount: uint256) returns (i: nat)
    requires LedgerReplayed(w.core) && LinesOwned(w) && StepVault(w, tx, Borrow(amount)).Ok?
    ensures tx.sender in w.vault.positions && i < |w.core.log|
    ensures var id := w.vault.positions[tx.sender].reserveAccountId;
      && id in w.core.accounts && w.core.accounts[id].borrower == tx.sender && w.core.accounts[id].status == Core.Active
      && w.core.log[i].accountId == id
      && w.core.log[i].attestedAt <= tx.env.now <= w.core.log[i].attestedAt + w.risk.config.reserveTtlSeconds
      && w.core.log[i].balanceDrops == w.core.accounts[id].balanceDrops
      && forall j | i < j < |w.core.log| :: w.core.log[j].accountId != id
  {
    BorrowGates(w, tx, amount);
    var id := w.vault.positions[tx.sender].reserveAccountId;
    assert LineOwned(w, tx.sender);
    assert Replay(w.core.log, id) == MarksOf(w.core, id);
    i := LastEvent(w.core.log, id);
  }

  /** Re-evaluated at the same price and time, the debt a borrow leaves is HEALTHY or WARNING. The engine
      answers at all exactly when the health factor fits a word. */
  lemma BorrowLeavesNoMarginCall(w: World, tx: Tx, amount: uint256)
    requires StepVault(w, tx, Borrow(amount)).Ok? && w.risk.config.marginCallHealthBps <= Risk.BASIS_POINTS
    ensures var (w', b) := (StepVault(w, tx, Borrow(amount)).value, tx.sender);
      && b in w'.vault.positions
      && var (id, debt) := (w'.vault.positions[b].reserveAccountId, w'.vault.positions[b].principalWad);
      && id in w.core.accounts && debt > 0
      && var again := w'.risk.GetSnapshot(w'.core.accounts, tx.env, id, debt);
      && (again.Ok? <==>
        CreditLimit(w.risk.config, w.core.accounts[id].balanceDrops, tx.env.priceWad) * Risk.BASIS_POINTS / debt
        <= MAX_UINT256)
      && (again.Ok? ==> again.value.status in {Risk.Healthy, Risk.Warning})
  {
    BorrowGates(w, tx, amount);
    var w' := StepVault(w, tx, Borrow(amount)).value;
    var (id, debt) := (w'.vault.positions[tx.sender].reserveAccountId, w'.vault.positions[tx.sender].principalWad);
    var a := w.core.accounts[id];
    if w'.risk.GetSnapshot(w'.core.accounts, tx.env, id, debt).Ok? {
      NoMarginCallWithinLimit(w.risk.config, a, debt, tx.env.priceWad, tx.env.priceTimestamp, tx.env.now);
    }
  }
}
