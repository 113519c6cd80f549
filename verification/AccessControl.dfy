/** The part of OpenZeppelin AccessControl the contracts use: `DEFAULT_ADMIN_ROLE`,
    which administers every role, and the one operator role of each contract. */
module AccessControl {
  import opened Evm

  datatype Role = DefaultAdmin | Operator
  datatype RoleOp =
    | GrantRole(role: Role, account: Address)
    | RevokeRole(role: Role, account: Address)
    | RenounceRole(role: Role, account: Address)

  datatype Roles = Roles(admins: set<Address>, operators: set<Address>) {
    function Granted(role: Role, account: Address): Roles {
      match role
      case DefaultAdmin => this.(admins := admins + {account})
      case Operator => this.(operators := operators + {account})
    }

    function Revoked(role: Role, account: Address): Roles {
      match role
      case DefaultAdmin => this.(admins := admins - {account})
      case Operator => this.(operators := operators - {account})
    }

    function Change(sender: Address, op: RoleOp): Outcome<Roles> {
      match op
      case GrantRole(role, account) =>
        var _ :- Require(sender in admins, UnauthorizedAccount);
        Ok(Granted(role, account))
      case RevokeRole(role, account) =>
        var _ :- Require(sender in admins, UnauthorizedAccount);
        Ok(Revoked(role, account))
      case RenounceRole(role, account) =>
        var _ :- Require(account == sender, BadConfirmation);
        Ok(Revoked(role, account))
    }
  }
}
