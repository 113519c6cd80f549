/** MockUSD.sol: the rfUSD token, with the ERC-20 transfer and allowance rules of EIP-20
    ("Methods") as OpenZeppelin implements them. */
module MockUsd {
  import opened Evm
  import opened AccessControl

  const INITIAL_VAULT_LIQUIDITY: nat := 1_000_000 * 1_000_000_000_000_000_000

  datatype TokenState = TokenState(
    totalSupply: nat, balances: map<Address, nat>, allowances: map<(Address, Address), uint256>, roles: Roles)
  {
    function BalanceOf(a: Address): nat { Lookup(balances, a) }
    function Allowance(owner: Address, spender: Address): nat { Lookup(allowances, (owner, spender)) }

    /** ERC20._transfer followed by ERC20._update. */
    function Move(from: Address, to: Address, amount: uint256): Outcome<TokenState> {
      var _ :- Require(from != ZERO_ADDRESS, InvalidSender);
      var _ :- Require(to != ZERO_ADDRESS, InvalidReceiver);
      var _ :- Require(BalanceOf(from) >= amount, InsufficientBalance);
      var debited := balances[from := BalanceOf(from) - amount];
      Ok(this.(balances := debited[to := Lookup(debited, to) + amount]))
    }

    function TransferFrom(spender: Address, from: Address, to: Address, amount: uint256): Outcome<TokenState> {
      var allowed := Allowance(from, spender);
      if allowed == MAX_UINT256 then Move(from, to, amount)
      else
        var _ :- Require(allowed >= amount, InsufficientAllowance);
        var _ :- Require(from != ZERO_ADDRESS, InvalidApprover);
        this.(allowances := allowances[(from, spender) := allowed - amount]).Move(from, to, amount)
    }

    function Approve(owner: Address, spender: Address, amount: uint256): Outcome<TokenState> {
      var _ :- Require(owner != ZERO_ADDRESS, InvalidApprover);
      var _ :- Require(spender != ZERO_ADDRESS, InvalidSpender);
      Ok(this.(allowances := allowances[(owner, spender) := amount]))
    }

    function Mint(sender: Address, recipient: Address, amount: uint256): Outcome<TokenState> {
      var _ :- Require(sender in roles.operators, UnauthorizedAccount);
      var _ :- Require(recipient != ZERO_ADDRESS, InvalidReceiver);
      var _ :- Require(totalSupply + amount <= MAX_UINT256, Panic);
      Ok(this.(totalSupply := totalSupply + amount, balances := balances[recipient := BalanceOf(recipient) + amount]))
    }

    function ChangeRole(sender: Address, op: RoleOp): Outcome<TokenState> {
      var r :- roles.Change(sender, op);
      Ok(this.(roles := r))
    }
  }

  const NO_TOKEN: TokenState := TokenState(0, map[], map[], Roles({}, {}))

  /** The state right after construction: everything minted to the vault, nobody left with a role. */
  function Minted(vault: Address): TokenState {
    TokenState(INITIAL_VAULT_LIQUIDITY, map[vault := INITIAL_VAULT_LIQUIDITY], map[], Roles({}, {}))
  }

  class MockUSD {
    const address: Address
    var totalSupply: nat
    var balances: map<Address, nat>
    var allowances: map<(Address, Address), uint256>
    var roles: Roles

    function State(): TokenState
      reads this
    {
      TokenState(totalSupply, balances, allowances, roles)
    }

    constructor (self: Address, deployer: Address, initialVault: Address)
      ensures address == self
      ensures State() == Minted(initialVault)
    {
      address := self;
      totalSupply, balances, allowances := 0, map[], map[];
      roles := Roles({}, {});
      new;
      roles := roles.Granted(DefaultAdmin, deployer);
      roles := roles.Granted(Operator, deployer);
      totalSupply := totalSupply + INITIAL_VAULT_LIQUIDITY;
      balances := balances[initialVault := Lookup(balances, initialVault) + INITIAL_VAULT_LIQUIDITY];
      roles := roles.Revoked(Operator, deployer);
      roles := roles.Revoked(DefaultAdmin, deployer);
    }

    method Move(from: Address, to: Address, amount: uint256) returns (out: Outcome<()>)
      modifies this`balances
      ensures Tracks(out, old(State().Move(from, to, amount)), State())
      ensures out.Revert? ==> State() == old(State())
    {
      var _ :- Require(from != ZERO_ADDRESS, InvalidSender);
      var _ :- Require(to != ZERO_ADDRESS, InvalidReceiver);
      var fromBalance := Lookup(balances, from);
      var _ :- Require(fromBalance >= amount, InsufficientBalance);
      balances := balances[from := fromBalance - amount];
      balances := balances[to := Lookup(balances, to) + amount];
      return Ok(());
    }

    method Transfer(sender: Address, to: Address, amount: uint256) returns (out: Outcome<()>)
      modifies this
      ensures Tracks(out, old(State().Move(sender, to, amount)), State())
      ensures out.Revert? ==> State() == old(State())
    {
      out := Move(sender, to, amount);
    }

    /** Spends the allowance before it moves the tokens. */
    method TransferFrom(spender: Address, from: Address, to: Address, amount: uint256) returns (out: Outcome<()>)
      modifies this
      ensures Tracks(out, old(State().TransferFrom(spender, from, to, amount)), State())
    {
      var allowed := Lookup(allowances, (from, spender));
      if allowed != MAX_UINT256 {
        var _ :- Require(allowed >= amount, InsufficientAllowance);
        var _ :- Require(from != ZERO_ADDRESS, InvalidApprover);
        allowances := allowances[(from, spender) := allowed - amount];
      }
      out := Move(from, to, amount);
    }

    method Approve(sender: Address, spender: Address, amount: uint256) returns (out: Outcome<()>)
      modifies this
      ensures Tracks(out, old(State().Approve(sender, spender, amount)), State())
    {
      var _ :- Require(sender != ZERO_ADDRESS, InvalidApprover);
      var _ :- Require(spender != ZERO_ADDRESS, InvalidSpender);
      allowances := allowances[(sender, spender) := amount];
      return Ok(());
    }

    method Mint(sender: Address, recipient: Address, amount: uint256) returns (out: Outcome<()>)
      modifies this
      ensures Tracks(out, old(State().Mint(sender, recipient, amount)), State())
    {
      var _ :- Require(sender in roles.operators, UnauthorizedAccount);
      var _ :- Require(recipient != ZERO_ADDRESS, InvalidReceiver);
      var _ :- Require(totalSupply + amount <= MAX_UINT256, Panic);
      totalSupply := totalSupply + amount;
      balances := balances[recipient := Lookup(balances, recipient) + amount];
      return Ok(());
    }

    method ChangeRole(sender: Address, op: RoleOp) returns (out: Outcome<()>)
      modifies this
      ensures Tracks(out, old(State().ChangeRole(sender, op)), State())
    {
      roles :- roles.Change(sender, op);
      return Ok(());
    }

    method Rollback(saved: TokenState)
      modifies this
      ensures State() == saved
    {
      totalSupply, balances, allowances, roles := saved.totalSupply, saved.balances, saved.allowances, saved.roles;
    }
  }
}
