/** XrpProofRegistry.sol: the global set of spent XRPL payments. */
module ProofRegistry {
  import opened Evm
  import opened AccessControl

  datatype ProofConsumed = ProofConsumed(proofId: Bytes32, consumer: Address)

  datatype RegistryState = RegistryState(roles: Roles, consumed: set<Bytes32>, log: seq<ProofConsumed>) {
    function SetProofConsumer(sender: Address, consumer: Address, allowed: bool): Outcome<RegistryState> {
      var _ :- Require(sender in roles.admins, UnauthorizedAccount);
      var _ :- Require(consumer != ZERO_ADDRESS, ZeroAddress);
      Ok(this.(roles := if allowed then roles.Granted(Operator, consumer) else roles.Revoked(Operator, consumer)))
    }

    function Consume(sender: Address, proofId: Bytes32): Outcome<RegistryState> {
      var _ :- Require(sender in roles.operators, UnauthorizedAccount);
      var _ :- Require(proofId !in consumed, ProofAlreadyConsumed);
      Ok(this.(consumed := consumed + {proofId}, log := log + [ProofConsumed(proofId, sender)]))
    }

    function ChangeRole(sender: Address, op: RoleOp): Outcome<RegistryState> {
      var r :- roles.Change(sender, op);
      Ok(this.(roles := r))
    }
  }

  class XrpProofRegistry {
    const address: Address
    var roles: Roles
    var consumedProofs: set<Bytes32>
    var events: seq<ProofConsumed>

    function State(): RegistryState
      reads this
    {
      RegistryState(roles, consumedProofs, events)
    }

    constructor (self: Address, admin: Address)
      ensures address == self
      ensures State() == RegistryState(Roles({admin}, {}), {}, [])
    {
      address := self;
      roles := Roles({admin}, {});
      consumedProofs := {};
      events := [];
    }

    method SetProofConsumer(sender: Address, consumer: Address, allowed: bool) returns (out: Outcome<()>)
      modifies this
      ensures Tracks(out, old(State().SetProofConsumer(sender, consumer, allowed)), State())
      ensures out.Revert? ==> State() == old(State())
    {
      var _ :- Require(sender in roles.admins, UnauthorizedAccount);
      var _ :- Require(consumer != ZERO_ADDRESS, ZeroAddress);
      if allowed {
        roles := roles.Granted(Operator, consumer);
      } else {
        roles := roles.Revoked(Operator, consumer);
      }
      return Ok(());
    }

    method Consume(sender: Address, proofId: Bytes32) returns (out: Outcome<()>)
      modifies this
      ensures Tracks(out, old(State().Consume(sender, proofId)), State())
      ensures out.Revert? ==> State() == old(State())
    {
      var _ :- Require(sender in roles.operators, UnauthorizedAccount);
      var _ :- Require(proofId !in consumedProofs, ProofAlreadyConsumed);
      consumedProofs := consumedProofs + {proofId};
      events := events + [ProofConsumed(proofId, sender)];
      return Ok(());
    }

    method ChangeRole(sender: Address, op: RoleOp) returns (out: Outcome<()>)
      modifies this
      ensures Tracks(out, old(State().ChangeRole(sender, op)), State())
    {
      roles :- roles.Change(sender, op);
      return Ok(());
    }

    /** Puts the storage back to what it was before a reverted transaction. */
    method Rollback(saved: RegistryState)
      modifies this
      ensures State() == saved
    {
      roles, consumedProofs, events := saved.roles, saved.consumed, saved.log;
    }
  }
}
