/** Every rfUSD that left the vault is somebody's principal, was repaid, or was cleared by a
    settled XRP repayment. */
module Conservation {
  import opened Evm
  import opened Sums
  import opened MockUsd
  import opened CreditVault
  import opened Protocol
  import opened Wiring
  import opened Reservations
  import Router = XrpRepaymentRouter

  // ---- Token supply -------------------------------------------------------------

  ghost predicate SupplyHeld(t: TokenState) { MapSum(t.balances) == t.totalSupply }

  /** A transfer keeps the sum of balances and moves exactly `amount` between two distinct accounts. */
  lemma MoveEffect(t: TokenState, from: Address, to: Address, amount: uint256, who: Address)
    requires t.Move(from, to, amount).Ok?
    ensures var t' := t.Move(from, to, amount).value;
      && MapSum(t'.balances) == MapSum(t.balances)
      && t'.totalSupply == t.totalSupply
      && t'.BalanceOf(who) + (if who == from then amount else 0) == t.BalanceOf(who) + (if who == to then amount else 0)
  {
    MoveKeepsSum(t, from, to, amount);
  }

  lemma MoveKeepsSum(t: TokenState, from: Address, to: Address, amount: uint256)
    requires t.Move(from, to, amount).Ok?
    ensures MapSum(t.Move(from, to, amount).value.balances) == MapSum(t.balances)
  {
    var debited := t.balances[from := t.BalanceOf(from) - amount];
    MapSumSet(t.balances, from, t.BalanceOf(from) - amount);
    MapSumSet(debited, to, Lookup(debited, to) + amount);
  }

  lemma TransferFromEffect(t: TokenState, spender: Address, from: Address, to: Address, amount: uint256, who: Address)
    requires t.TransferFrom(spender, from, to, amount).Ok?
    ensures var t' := t.TransferFrom(spender, from, to, amount).value;
      && amount <= t.Allowance(from, spender)
      && MapSum(t'.balances) == MapSum(t.balances)
      && t'.totalSupply == t.totalSupply
      && t'.BalanceOf(who) + (if who == from then amount else 0) == t.BalanceOf(who) + (if who == to then amount else 0)
  {
    if t.Allowance(from, spender) == MAX_UINT256 {
      MoveEffect(t, from, to, amount, who);
    } else {
      var allowed := t.Allowance(from, spender);
      MoveEffect(t.(allowances := t.allowances[(from, spender) := allowed - amount]), from, to, amount, who);
    }
  }

  /** The balances never leave the range of a word, so the unchecked addition of ERC20._update cannot wrap. */
  lemma BalancesFit(t: TokenState, vault: Address, a: Address)
    requires Sealed(t, vault) && SupplyHeld(t)
    ensures t.BalanceOf(a) <= INITIAL_VAULT_LIQUIDITY <= MAX_UINT256
  {
    if a in t.balances { MapSumBounds(t.balances, a); }
  }

  // ---- Backing of the vault -----------------------------------------------------

  ghost function Principals(v: VaultState): map<Address, nat> {
    map b | b in v.positions :: v.positions[b].principalWad
  }

  ghost function AllSettled(intents: Intents): map<Bytes32, nat> {
    map k | k in intents && intents[k].status == Router.Settled :: intents[k].repaymentWad
  }

  /** rfUSD in the vault, rfUSD lent out, and principal that was cleared in XRP instead. */
  ghost function Backing(w: World): nat {
    w.token.BalanceOf(w.at.vault) + MapSum(Principals(w.vault)) + MapSum(AllSettled(w.router.intents))
  }

  /** rfUSD a transaction sends to the vault without repaying anything. */
  function Donated(w: World, tx: Tx): nat {
    if Step(w, tx).Ok? && tx.call.ToToken? then
      match tx.call.token
      case Transfer(to, amount) => if to == w.at.vault then amount else 0
      case TransferFrom(from, to, amount) => if to == w.at.vault then amount else 0
      case _ => 0
    else 0
  }

  lemma PrincipalSet(v: VaultState, b: Address, p: CreditPosition)
    ensures MapSum(Principals(v.(positions := v.positions[b := p]))) + v.Principal(b)
      == MapSum(Principals(v)) + p.principalWad
  {
    assert Principals(v.(positions := v.positions[b := p])) == Principals(v)[b := p.principalWad];
    MapSumSet(Principals(v), b, p.principalWad);
  }

  lemma AllSettledMove(intents: Intents, k: Bytes32, i: Router.RepaymentIntent)
    requires k in intents ==> intents[k].status != Router.Settled
    ensures MapSum(AllSettled(intents[k := i]))
      == MapSum(AllSettled(intents)) + if i.status == Router.Settled then i.repaymentWad else 0
  {
    MapSumSet(AllSettled(intents), k, i.repaymentWad);
    assert AllSettled(intents) - {k} == AllSettled(intents);
    if i.status == Router.Settled {
      assert AllSettled(intents[k := i]) == AllSettled(intents)[k := i.repaymentWad];
    } else {
      assert AllSettled(intents[k := i]) == AllSettled(intents);
    }
  }

  lemma TokenBacking(w: World, tx: Tx, c: TokenCall)
    requires Sealed(w.token, w.at.vault) && tx.sender != w.at.vault && StepToken(w, tx, c).Ok? && tx.call == ToToken(c)
    ensures Step(w, tx) == StepToken(w, tx, c)
    ensures var w' := StepToken(w, tx, c).value;
      && Backing(w') == Backing(w) + Donated(w, tx)
      && (SupplyHeld(w.token) ==> SupplyHeld(w'.token))
  {
    match c
    case Transfer(to, amount) => MoveEffect(w.token, tx.sender, to, amount, w.at.vault);
    case TransferFrom(from, to, amount) =>
      TransferFromEffect(w.token, tx.sender, from, to, amount, w.at.vault);
      assert w.token.Allowance(w.at.vault, tx.sender) == 0;
    case _ => {}
  }

  lemma VaultSupply(w: World, tx: Tx, c: VaultCall)
    requires Wired(w) && StepVault(w, tx, c).Ok? && SupplyHeld(w.token)
    ensures SupplyHeld(StepVault(w, tx, c).value.token)
  {
    VaultFrame(w, tx, c);
    match c
    case Borrow(amount) =>
      BorrowEffect(w, tx, amount);
      MoveEffect(w.token, w.at.vault, tx.sender, amount, tx.sender);
    case Repay(amount) =>
      RepayEffect(w, tx, amount);
      TransferFromEffect(w.token, w.at.vault, tx.sender, w.at.vault, amount, tx.sender);
    case _ => {}
  }

  lemma BorrowBacking(w: World, tx: Tx, amount: uint256)
    requires Wired(w) && tx.sender != w.at.vault && StepVault(w, tx, Borrow(amount)).Ok?
    ensures Backing(StepVault(w, tx, Borrow(amount)).value) == Backing(w)
  {
    var v' := StepVault(w, tx, Borrow(amount)).value.vault;
    BorrowEffect(w, tx, amount);
    MoveEffect(w.token, w.at.vault, tx.sender, amount, w.at.vault);
    PrincipalSet(w.vault, tx.sender, v'.positions[tx.sender]);
  }

  lemma RepayBacking(w: World, tx: Tx, amount: uint256)
    requires Wired(w) && tx.sender != w.at.vault && StepVault(w, tx, Repay(amount)).Ok?
    ensures Backing(StepVault(w, tx, Repay(amount)).value) == Backing(w)
  {
    var v' := StepVault(w, tx, Repay(amount)).value.vault;
    RepayEffect(w, tx, amount);
    TransferFromEffect(w.token, w.at.vault, tx.sender, w.at.vault, amount, w.at.vault);
    PrincipalSet(w.vault, tx.sender, v'.positions[tx.sender]);
  }

  lemma VaultBacking(w: World, tx: Tx, c: VaultCall)
    requires Wired(w) && tx.sender != w.at.vault && tx.sender != w.at.repaymentRouter && StepVault(w, tx, c).Ok?
    ensures Backing(StepVault(w, tx, c).value) == Backing(w)
  {
    VaultFrame(w, tx, c);
    var v' := StepVault(w, tx, c).value.vault;
    match c
    case Borrow(amount) => BorrowBacking(w, tx, amount);
    case Repay(amount) => RepayBacking(w, tx, amount);
    case OpenCreditLine(id) => PrincipalSet(w.vault, tx.sender, v'.positions[tx.sender]);
    case SyncRisk => PrincipalSet(w.vault, tx.sender, v'.positions[tx.sender]);
    case _ => {}
  }

  lemma RouterBacking(w: World, tx: Tx, c: RouterCall)
    requires Wired(w) && IntentsFresh(w) && StepRouter(w, tx, c).Ok?
    ensures Backing(StepRouter(w, tx, c).value) == Backing(w)
  {
    RouterFrame(w, tx, c);
    RouterEffect(w, tx, c);
    RouterVaultEffect(w, tx, c);
    var w' := StepRouter(w, tx, c).value;
    var (id, before, after) := (Touched(w, tx, c), w.router.intents, w'.router.intents);
    var i := after[id];
    AllSettledMove(before, id, i);
    if c.SettleRepaymentWithProof? { PrincipalSet(w.vault, i.borrower, w'.vault.positions[i.borrower]); }
  }

  lemma BackingStep(w: World, tx: Tx)
    requires Wired(w) && Sealed(w.token, w.at.vault) && IntentsFresh(w) && tx.External(w.at)
    ensures Backing(Next(w, tx)) == Backing(w) + Donated(w, tx)
  {
    assert tx.sender != w.at.vault && tx.sender != w.at.repaymentRouter by {
      assert w.at.vault in w.at.All() && w.at.repaymentRouter in w.at.All();
    }
    if Step(w, tx).Ok? {
      match tx.call
      case ToCore(c) => CoreFrame(w, tx, c);
      case ToVault(c) => VaultFrame(w, tx, c); VaultBacking(w, tx, c);
      case ToToken(c) => TokenBacking(w, tx, c);
      case ToRouter(c) => RouterFrame(w, tx, c); RouterBacking(w, tx, c);
      case _ => {}
    }
  }

  lemma SupplyStep(w: World, tx: Tx)
    requires Wired(w) && Sealed(w.token, w.at.vault) && tx.External(w.at) && SupplyHeld(w.token)
    ensures SupplyHeld(Next(w, tx).token)
  {
    assert tx.sender != w.at.vault by { assert w.at.vault in w.at.All(); }
    if Step(w, tx).Ok? {
      match tx.call
      case ToCore(c) => CoreFrame(w, tx, c);
      case ToVault(c) => VaultSupply(w, tx, c);
      case ToToken(c) => TokenBacking(w, tx, c);
      case ToRouter(c) => RouterFrame(w, tx, c);
      case _ => {}
    }
  }

  // ---- One borrower's account ---------------------------------------------------

  function BorrowedBy(log: seq<VaultEvent>, b: Address): nat {
    if log == [] then 0 else
      var e := log[|log| - 1];
      BorrowedBy(log[..|log| - 1], b) + if e.Borrowed? && e.borrower == b then e.amountWad else 0
  }

  function RepaidBy(log: seq<VaultEvent>, b: Address): nat {
    if log == [] then 0 else
      var e := log[|log| - 1];
      RepaidBy(log[..|log| - 1], b) + if e.Repaid? && e.borrower == b then e.amountWad else 0
  }

  ghost predicate DebtExplained(v: VaultState, intents: Intents, b: Address) {
    v.Principal(b) + RepaidBy(v.log, b) + SettledTotal(intents, b) == BorrowedBy(v.log, b)
  }

  lemma VaultKeepsDebt(w: World, tx: Tx, c: VaultCall, b: Address)
    requires Wired(w) && tx.sender != w.at.repaymentRouter && StepVault(w, tx, c).Ok?
    requires DebtExplained(w.vault, w.router.intents, b)
    ensures DebtExplained(StepVault(w, tx, c).value.vault, w.router.intents, b)
  {
    match c
    case Borrow(amount) => BorrowKeepsDebt(w, tx, amount, b);
    case Repay(amount) => RepayKeepsDebt(w, tx, amount, b);
    case _ => {}
  }

  lemma BorrowKeepsDebt(w: World, tx: Tx, amount: uint256, b: Address)
    requires StepVault(w, tx, Borrow(amount)).Ok? && DebtExplained(w.vault, w.router.intents, b)
    ensures DebtExplained(StepVault(w, tx, Borrow(amount)).value.vault, w.router.intents, b)
  {
    var v' := StepVault(w, tx, Borrow(amount)).value.vault;
    assert v'.log[..|v'.log| - 1] == w.vault.log;
  }

  lemma RepayKeepsDebt(w: World, tx: Tx, amount: uint256, b: Address)
    requires StepVault(w, tx, Repay(amount)).Ok? && DebtExplained(w.vault, w.router.intents, b)
    ensures DebtExplained(StepVault(w, tx, Repay(amount)).value.vault, w.router.intents, b)
  {
    var v' := StepVault(w, tx, Repay(amount)).value.vault;
    assert v'.log[..|v'.log| - 1] == w.vault.log;
  }

  lemma RouterKeepsDebt(w: World, tx: Tx, c: RouterCall, b: Address)
    requires Wired(w) && IntentsFresh(w) && StepRouter(w, tx, c).Ok?
    requires DebtExplained(w.vault, w.router.intents, b)
    ensures var w' := StepRouter(w, tx, c).value; DebtExplained(w'.vault, w'.router.intents, b)
  {
    RouterEffect(w, tx, c);
    RouterVaultEffect(w, tx, c);
    var w' := StepRouter(w, tx, c).value;
    var (id, before, after) := (Touched(w, tx, c), w.router.intents, w'.router.intents);
    StatusMove(before, id, after[id], Router.Settled, b);
    if c.SettleRepaymentWithProof? { assert w'.vault.log[..|w'.vault.log| - 1] == w.vault.log; }
  }

  lemma DebtStep(w: World, tx: Tx, b: Address)
    requires Wired(w) && IntentsFresh(w) && tx.External(w.at)
    requires DebtExplained(w.vault, w.router.intents, b)
    ensures DebtExplained(Next(w, tx).vault, Next(w, tx).router.intents, b)
  {
    assert w.at.repaymentRouter in w.at.All();
    if Step(w, tx).Ok? {
      match tx.call
      case ToCore(c) => CoreFrame(w, tx, c);
      case ToVault(c) => VaultFrame(w, tx, c); VaultKeepsDebt(w, tx, c, b);
      case ToRouter(c) => RouterKeepsDebt(w, tx, c, b);
      case _ => {}
    }
  }
}
