/** RiskEngine.sol: credit limit, health and status of an account at a price. */
module RiskEngine {
  import opened Evm
  import opened ReserveFlowCore
  import opened Rounding

  const BASIS_POINTS: nat := 10_000
  const DROPS_PER_XRP: nat := 1_000_000

  datatype RiskStatus = Healthy | Warning | MarginCall | PriceStale | ReserveStale | Frozen

  datatype RiskConfig = RiskConfig(
    haircutBps: uint16, advanceRateBps: uint16, priceTtlSeconds: uint64, reserveTtlSeconds: uint64,
    warningHealthBps: uint16, marginCallHealthBps: uint16)
  {
    predicate Valid() {
      && haircutBps <= BASIS_POINTS && advanceRateBps <= BASIS_POINTS
      && priceTtlSeconds != 0 && reserveTtlSeconds != 0
      && marginCallHealthBps != 0 && warningHealthBps >= marginCallHealthBps
    }
  }

  const DEFAULT_CONFIG: RiskConfig := RiskConfig(3_000, 5_000, 60, 900, 12_000, 10_000)

  /** A configuration that is in storage has passed the checks of `setRiskConfig`. */
  type StoredConfig = c: RiskConfig | c.Valid() witness DEFAULT_CONFIG

  datatype RiskSnapshot = RiskSnapshot(
    grossReserveUsdWad: uint256, adjustedReserveUsdWad: uint256, creditLimitWad: uint256, availableCreditWad: uint256,
    healthFactorBps: uint256, healthIsInfinite: bool, priceTimestamp: uint64, reserveTimestamp: uint64,
    status: RiskStatus)

  predicate IsFresh(timestamp: uint64, ttl: uint64, now: uint64) {
    timestamp != 0 && timestamp <= now && now - timestamp <= ttl
  }

  function StatusOf(config: StoredConfig, account: ReserveAccount, priceTimestamp: uint64, now: uint64,
                    health: nat, debt: nat): RiskStatus
  {
    if account.status != Active then RiskStatus.Frozen
    else if !IsFresh(priceTimestamp, config.priceTtlSeconds, now) then RiskStatus.PriceStale
    else if !IsFresh(account.lastAttestedAt, config.reserveTtlSeconds, now) then ReserveStale
    else if debt == 0 || health >= config.warningHealthBps then Healthy
    else if health >= config.marginCallHealthBps then Warning
    else MarginCall
  }

  /** The three nested floors of `_snapshot`, in order. */
  function Gross(balance: nat, price: nat): nat { balance * price / DROPS_PER_XRP }
  function Adjusted(config: StoredConfig, gross: nat): nat { gross * (BASIS_POINTS - config.haircutBps) / BASIS_POINTS }
  function Limit(config: StoredConfig, adjusted: nat): nat { adjusted * config.advanceRateBps / BASIS_POINTS }

  function Snapshot(config: StoredConfig, account: ReserveAccount, debt: uint256, price: uint256,
                    priceTimestamp: uint64, now: uint64): Outcome<RiskSnapshot>
  {
    var gross :- MulDiv(account.balanceDrops, price, DROPS_PER_XRP);
    var adjusted :- MulDiv(gross, BASIS_POINTS - config.haircutBps, BASIS_POINTS);
    var limit :- MulDiv(adjusted, config.advanceRateBps, BASIS_POINTS);
    var health :- if debt == 0 then Ok(0) else MulDiv(limit, BASIS_POINTS, debt);
    Ok(RiskSnapshot(gross, adjusted, limit, if debt >= limit then 0 else limit - debt, health, debt == 0,
                    priceTimestamp, account.lastAttestedAt,
                    StatusOf(config, account, priceTimestamp, now, health, debt)))
  }

  lemma FloorsAreQuotients(n: nat, d: nat)
    requires d > 0
    ensures forall q: nat | q * d <= n < (q + 1) * d :: q == n / d
  {
    forall q: nat | q * d <= n < (q + 1) * d ensures q == n / d {
      FloorIff(n, d, q);
      FloorIff(n, d, q + 1);
    }
  }

  datatype RiskState = RiskState(riskAdmin: Address, version: uint64, config: StoredConfig) {
    function SetConfig(sender: Address, next: RiskConfig): Outcome<RiskState> {
      var _ :- Require(sender == riskAdmin, UnauthorizedRiskAdmin);
      var _ :- Require(next.Valid(), InvalidRiskConfig);
      var _ :- Require(version < 0xFFFF_FFFF_FFFF_FFFF, Panic);
      Ok(this.(version := version + 1, config := next))
    }

    function GetSnapshot(accounts: map<Bytes32, ReserveAccount>, env: Env, id: Bytes32, debt: uint256)
      : Outcome<RiskSnapshot>
    {
      var _ :- Require(id in accounts, AccountNotFound);
      Snapshot(config, accounts[id], debt, env.priceWad, env.priceTimestamp, env.now)
    }

    function SimulatePriceDrop(accounts: map<Bytes32, ReserveAccount>, env: Env, id: Bytes32, debt: uint256,
                               dropBps: uint256)
      : Outcome<RiskSnapshot>
    {
      var _ :- Require(dropBps <= BASIS_POINTS, InvalidPriceDrop);
      var simulated :- MulDiv(env.priceWad, BASIS_POINTS - dropBps, BASIS_POINTS);
      var _ :- Require(id in accounts, AccountNotFound);
      Snapshot(config, accounts[id], debt, simulated, env.priceTimestamp, env.now)
    }
  }

  class RiskEngine {
    const address: Address
    const reserveLedger: ReserveFlowCore
    const riskAdmin: Address
    var riskConfigVersion: uint64
    var config: StoredConfig

    function State(): RiskState
      reads this
    {
      RiskState(riskAdmin, riskConfigVersion, config)
    }

    function GetRiskSnapshot(env: Env, accountId: Bytes32, debtWad: uint256): Outcome<RiskSnapshot>
      reads this, reserveLedger
    {
      State().GetSnapshot(reserveLedger.reserveAccounts, env, accountId, debtWad)
    }

    function SimulatePriceDrop(env: Env, accountId: Bytes32, debtWad: uint256, dropBps: uint256)
      : (r: Outcome<RiskSnapshot>)
      reads this, reserveLedger
      ensures dropBps > 10_000 ==> r == Revert(InvalidPriceDrop)
      ensures forall q: uint256 |
          dropBps <= 10_000 && q * 10_000 <= env.priceWad * (10_000 - dropBps) < (q + 1) * 10_000 ::
        r == if accountId in reserveLedger.reserveAccounts
             then Snapshot(config, reserveLedger.reserveAccounts[accountId], debtWad, q, env.priceTimestamp, env.now)
             else Revert(AccountNotFound)
    {
      FloorsAreQuotients(env.priceWad * (if dropBps <= 10_000 then 10_000 - dropBps else 0), 10_000);
      State().SimulatePriceDrop(reserveLedger.reserveAccounts, env, accountId, debtWad, dropBps)
    }

    constructor (self: Address, riskAdmin: Address, reserveLedger: ReserveFlowCore)
      ensures address == self && this.reserveLedger == reserveLedger
      ensures State() == RiskState(riskAdmin, 1, DEFAULT_CONFIG)
    {
      address := self;
      this.reserveLedger := reserveLedger;
      this.riskAdmin := riskAdmin;
      config := DEFAULT_CONFIG;
      riskConfigVersion := 1;
    }

    method SetRiskConfig(sender: Address, next: RiskConfig) returns (out: Outcome<()>)
      modifies this
      ensures Tracks(out, old(State().SetConfig(sender, next)), State())
    {
      var _ :- Require(sender == riskAdmin, UnauthorizedRiskAdmin);
      var _ :- Require(next.Valid(), InvalidRiskConfig);
      var _ :- Require(riskConfigVersion < 0xFFFF_FFFF_FFFF_FFFF, Panic);
      riskConfigVersion := riskConfigVersion + 1;
      config := next;
      return Ok(());
    }

    method Rollback(saved: RiskState)
      requires saved.riskAdmin == riskAdmin
      modifies this
      ensures State() == saved
    {
      riskConfigVersion, config := saved.version, saved.config;
    }
  }
}
