/** Arithmetic of the credit limit, the health factor, the price drop and the XRP quote. */
module CreditMath {
  import opened Evm
  import opened Rounding
  import opened RiskEngine
  import opened ReserveFlowCore

  function CreditLimit(config: StoredConfig, balance: nat, price: nat): nat {
    Limit(config, Adjusted(config, Gross(balance, price)))
  }

  const LIMIT_SCALE: nat := 100_000_000_000_000 // DROPS_PER_XRP * BASIS_POINTS * BASIS_POINTS

  function Product(n: nat, x: nat, y: nat): nat { n * (x * y) }

  /** The limit with one rounding at the end: floor(balance * price * (1 - haircut) * advance / 10^6). */
  function ExactLimit(config: StoredConfig, balance: nat, price: nat): nat {
    Product(balance * price, BASIS_POINTS - config.haircutBps, config.advanceRateBps) / LIMIT_SCALE
  }

  // ---- Nested floors ------------------------------------------------------------

  /** What three floors lose, in terms of their remainders. */
  lemma NestedRemainders(n: nat, x: nat, y: nat, d: nat, b: nat, g: nat, a: nat, l: nat, rn: nat, ra: nat, rl: nat)
    requires n == g * d + rn && g * x == a * b + ra && a * y == l * b + rl
    ensures Product(n, x, y) == l * (d * b * b) + rl * (b * d) + ra * (y * d) + rn * (x * y)
  {
    Regroup(g, d, rn, x, y);
    assert (g * x) * (y * d) == (a * b + ra) * (y * d);
    Regroup2(a, b, ra, y, d);
    assert (a * y) * (b * d) == (l * b + rl) * (b * d);
    Regroup3(l, b, rl, d);
  }

  lemma NestedFloorBounds(n: nat, x: nat, y: nat, d: nat, b: nat, g: nat, a: nat, l: nat)
    requires d > 0 && b > 0 && x <= b && y <= b
    requires g == n / d && a == g * x / b && l == a * y / b
    ensures l * (d * b * b) <= Product(n, x, y) < (l + 3) * (d * b * b)
  {
    var (rn, ra, rl) := (n % d, g * x % b, a * y % b);
    NestedRemainders(n, x, y, d, b, g, a, l, rn, ra, rl);
    RemainderBounds(x, y, d, b, rn, ra, rl);
    assert (l + 3) * (d * b * b) == l * (d * b * b) + 3 * (d * b * b);
  }

  lemma RemainderBounds(x: nat, y: nat, d: nat, b: nat, rn: nat, ra: nat, rl: nat)
    requires x <= b && y <= b && rn < d && ra < b && rl < b
    ensures 0 <= rl * (b * d) + ra * (y * d) + rn * (x * y) < 3 * (d * b * b)
  {
    AdvanceRemainder(rl, b, d, b);
    AdvanceRemainder(ra, y, d, b);
    GrossRemainder(rn, x, y, d, b);
  }

  lemma AdvanceRemainder(r: nat, y: nat, d: nat, b: nat)
    requires r < b && y <= b && d > 0
    ensures 0 <= r * (y * d) < d * b * b
  {
    var u := b * d;
    MulMono(y, b, d);
    MulMono(y * d, u, r);
    MulMono(r, b - 1, u);
    MulMono(1, d, b);
    assert (b - 1) * u == b * u - u;
    Commute(b, d);
  }

  lemma Commute(b: nat, d: nat)
    ensures b * (b * d) == d * b * b
  {}

  lemma GrossRemainder(r: nat, x: nat, y: nat, d: nat, b: nat)
    requires r < d && x <= b && y <= b && b > 0
    ensures 0 <= r * (x * y) < d * b * b
  {
    MulMono(x, b, y);
    MulMono(y, b, b);
    MulMono(x * y, b * b, r);
    assert (d - r) * (b * b) > 0;
    assert (d - r) * (b * b) == d * b * b - r * (b * b);
  }

  lemma Regroup(g: nat, d: nat, rn: nat, x: nat, y: nat)
    ensures (g * d + rn) * (x * y) == (g * x) * (y * d) + rn * (x * y)
  {}

  lemma Regroup2(a: nat, b: nat, ra: nat, y: nat, d: nat)
    ensures (a * b + ra) * (y * d) == (a * y) * (b * d) + ra * (y * d)
  {}

  lemma Regroup3(l: nat, b: nat, rl: nat, d: nat)
    ensures (l * b + rl) * (b * d) == l * (d * b * b) + rl * (b * d)
  {}

  /** Rounding three times never lends more than rounding once, and at most 2 units less. */
  lemma LimitRounding(config: StoredConfig, balance: nat, price: nat)
    ensures var limit := CreditLimit(config, balance, price);
      limit <= ExactLimit(config, balance, price) <= limit + 2
  {
    var (x, y, n, l) := (BASIS_POINTS - config.haircutBps, config.advanceRateBps, balance * price,
                         CreditLimit(config, balance, price));
    var g := Gross(balance, price);
    NestedFloorBounds(n, x, y, DROPS_PER_XRP, BASIS_POINTS, g, Adjusted(config, g), l);
    FloorIff(Product(n, x, y), LIMIT_SCALE, l);
    FloorIff(Product(n, x, y), LIMIT_SCALE, l + 3);
  }

  /** The same, on the snapshot the vault lends against. */
  lemma SnapshotLimitRounding(config: StoredConfig, account: ReserveAccount, debt: uint256, price: uint256,
                              priceTimestamp: uint64, now: uint64)
    requires Snapshot(config, account, debt, price, priceTimestamp, now).Ok?
    ensures var s := Snapshot(config, account, debt, price, priceTimestamp, now).value;
      && s.creditLimitWad <= ExactLimit(config, account.balanceDrops, price) <= s.creditLimitWad + 2
      && s.creditLimitWad <= s.adjustedReserveUsdWad <= s.grossReserveUsdWad
      && (config.haircutBps == 3_000 && config.advanceRateBps == 5_000 ==>
        s.creditLimitWad == 35 * s.grossReserveUsdWad / 100)
  {
    var (b, x, y) := (account.balanceDrops, BASIS_POINTS - config.haircutBps, config.advanceRateBps);
    LimitRounding(config, b, price);
    DefaultLimit(b, price);
    var g := Gross(b, price);
    var a := Adjusted(config, g);
    MulMono(x, BASIS_POINTS, g); DivMono(g * x, g * BASIS_POINTS, BASIS_POINTS);
    MulMono(y, BASIS_POINTS, a); DivMono(a * y, a * BASIS_POINTS, BASIS_POINTS);
  }

  /** The bound of 2 is attained. */
  lemma LimitRoundingTight()
    ensures exists config: StoredConfig, balance, price ::
      ExactLimit(config, balance, price) == CreditLimit(config, balance, price) + 2
  {
    var config := DEFAULT_CONFIG.(haircutBps := 5908, advanceRateBps := 8415);
    assert config.Valid();
    assert ExactLimit(config, 2, 5_575_985_881) == 3840;
    assert CreditLimit(config, 2, 5_575_985_881) == 3838;
  }

  lemma DefaultLimit(balance: nat, price: nat)
    ensures CreditLimit(DEFAULT_CONFIG, balance, price) == 35 * Gross(balance, price) / 100
  {
    var g := Gross(balance, price);
    assert Adjusted(DEFAULT_CONFIG, g) == 7 * g / 10;
  }

  lemma ScaleMonotone(a: nat, a': nat, rate: nat, rate': nat, d: nat)
    requires a <= a' && rate <= rate' && d > 0
    ensures a * rate / d <= a' * rate' / d
  {
    MulMono(a, a', rate);
    MulMono(rate, rate', a');
    DivMono(a * rate, a' * rate', d);
  }

  lemma LimitMonotone(c: StoredConfig, c': StoredConfig, balance: nat, balance': nat, price: nat, price': nat)
    requires balance <= balance' && price <= price'
    requires c.haircutBps >= c'.haircutBps && c.advanceRateBps <= c'.advanceRateBps
    ensures CreditLimit(c, balance, price) <= CreditLimit(c', balance', price')
  {
    var (g, g') := (Gross(balance, price), Gross(balance', price'));
    ScaleMonotone(balance, balance', price, price', DROPS_PER_XRP);
    ScaleMonotone(g, g', BASIS_POINTS - c.haircutBps, BASIS_POINTS - c'.haircutBps, BASIS_POINTS);
    ScaleMonotone(Adjusted(c, g), Adjusted(c', g'), c.advanceRateBps, c'.advanceRateBps, BASIS_POINTS);
  }

  // ---- The snapshot -------------------------------------------------------------

  /** `q` is `n` divided by `d` and rounded down. */
  predicate IsFloor(q: nat, n: nat, d: nat) { q * d <= n < (q + 1) * d }

  lemma FloorUnique(q: nat, n: nat, d: nat)
    requires d > 0
    ensures IsFloor(q, n, d) <==> q == n / d
  {
    FloorIff(n, d, q);
    FloorIff(n, d, q + 1);
  }

  /** Every field of a snapshot, each rounded down from exact arithmetic on the one before. */
  lemma SnapshotFields(config: StoredConfig, account: ReserveAccount, debt: uint256, price: uint256,
                       priceTimestamp: uint64, now: uint64)
    requires Snapshot(config, account, debt, price, priceTimestamp, now).Ok?
    ensures var s := Snapshot(config, account, debt, price, priceTimestamp, now).value;
      && IsFloor(s.grossReserveUsdWad, account.balanceDrops * price, 1_000_000)
      && IsFloor(s.adjustedReserveUsdWad, s.grossReserveUsdWad * (10_000 - config.haircutBps), 10_000)
      && IsFloor(s.creditLimitWad, s.adjustedReserveUsdWad * config.advanceRateBps, 10_000)
      && s.creditLimitWad == CreditLimit(config, account.balanceDrops, price)
      && s.availableCreditWad + (if debt < s.creditLimitWad then debt else s.creditLimitWad) == s.creditLimitWad
      && (s.healthIsInfinite <==> debt == 0)
      && (if debt == 0 then s.healthFactorBps == 0 else IsFloor(s.healthFactorBps, s.creditLimitWad * 10_000, debt))
      && s.priceTimestamp == priceTimestamp && s.reserveTimestamp == account.lastAttestedAt
  {
    var s := Snapshot(config, account, debt, price, priceTimestamp, now).value;
    FloorUnique(s.grossReserveUsdWad, account.balanceDrops * price, 1_000_000);
    FloorUnique(s.adjustedReserveUsdWad, s.grossReserveUsdWad * (10_000 - config.haircutBps), 10_000);
    FloorUnique(s.creditLimitWad, s.adjustedReserveUsdWad * config.advanceRateBps, 10_000);
    if debt > 0 { FloorUnique(s.healthFactorBps, s.creditLimitWad * 10_000, debt); }
  }

  /** What a word can hold after rounding down. */
  predicate Fits(n: nat, d: nat) { n < (MAX_UINT256 + 1) * d }

  lemma FitsExactly(n: nat, d: nat)
    requires d > 0
    ensures Fits(n, d) <==> n / d <= MAX_UINT256
  {
    FloorIff(n, d, MAX_UINT256 + 1);
  }

  /** The engine answers exactly when the gross value and the health factor fit a word. */
  predicate Answers(config: StoredConfig, balance: nat, debt: nat, price: nat) {
    Fits(balance * price, 1_000_000) && (debt > 0 ==> Fits(CreditLimit(config, balance, price) * 10_000, debt))
  }

  lemma SnapshotAnswers(config: StoredConfig, account: ReserveAccount, debt: uint256, price: uint256,
                        priceTimestamp: uint64, now: uint64)
    ensures Snapshot(config, account, debt, price, priceTimestamp, now).Ok? <==>
      Answers(config, account.balanceDrops, debt, price)
    ensures Snapshot(config, account, debt, price, priceTimestamp, now).Revert? ==>
      Snapshot(config, account, debt, price, priceTimestamp, now) == Revert(Panic)
  {
    var (g, x, y) := (Gross(account.balanceDrops, price), BASIS_POINTS - config.haircutBps, config.advanceRateBps);
    var a := Adjusted(config, g);
    FitsExactly(account.balanceDrops * price, 1_000_000);
    MulMono(x, BASIS_POINTS, g); DivMono(g * x, g * BASIS_POINTS, BASIS_POINTS);
    MulMono(y, BASIS_POINTS, a); DivMono(a * y, a * BASIS_POINTS, BASIS_POINTS);
    if debt > 0 { FitsExactly(CreditLimit(config, account.balanceDrops, price) * 10_000, debt); }
  }

  // ---- Health -------------------------------------------------------------------

  /** Comparing the floored health factor with a whole threshold loses nothing. */
  lemma HealthThreshold(limit: nat, debt: nat, threshold: nat)
    requires debt > 0
    ensures limit * BASIS_POINTS / debt >= threshold <==> debt * threshold <= limit * BASIS_POINTS
  {
    FloorIff(limit * BASIS_POINTS, debt, threshold);
    assert threshold * debt == debt * threshold;
  }

  /** The status without any rounding: frozen, price and reserve freshness first, in that order, then debt
      times threshold against the limit. */
  lemma StatusByThresholds(config: StoredConfig, account: ReserveAccount, debt: uint256, price: uint256,
                           priceTimestamp: uint64, now: uint64)
    requires Snapshot(config, account, debt, price, priceTimestamp, now).Ok?
    ensures var s := Snapshot(config, account, debt, price, priceTimestamp, now).value;
      var (priceFresh, reserveFresh) := (0 < priceTimestamp <= now <= priceTimestamp + config.priceTtlSeconds,
        0 < account.lastAttestedAt <= now <= account.lastAttestedAt + config.reserveTtlSeconds);
      var (healthy, solvent) := (debt * config.warningHealthBps <= s.creditLimitWad * BASIS_POINTS,
                                 debt * config.marginCallHealthBps <= s.creditLimitWad * BASIS_POINTS);
      && (s.status == RiskStatus.Frozen <==> account.status != Active)
      && (s.status == RiskStatus.PriceStale <==> account.status == Active && !priceFresh)
      && (s.status == ReserveStale <==> account.status == Active && priceFresh && !reserveFresh)
      && (s.status == Healthy <==> account.status == Active && priceFresh && reserveFresh && healthy)
      && (s.status == Warning <==> account.status == Active && priceFresh && reserveFresh && !healthy && solvent)
      && (s.status == MarginCall <==> account.status == Active && priceFresh && reserveFresh && !solvent)
      && (healthy ==> solvent)
  {
    var limit := Snapshot(config, account, debt, price, priceTimestamp, now).value.creditLimitWad;
    if debt > 0 {
      HealthThreshold(limit, debt, config.warningHealthBps);
      HealthThreshold(limit, debt, config.marginCallHealthBps);
    }
    MulMono(config.marginCallHealthBps, config.warningHealthBps, debt);
  }

  /** Right after a borrow that stayed within the limit, the same price and time show no margin call. */
  lemma NoMarginCallWithinLimit(config: StoredConfig, account: ReserveAccount, debt: uint256, price: uint256,
                                priceTimestamp: uint64, now: uint64)
    requires config.marginCallHealthBps <= BASIS_POINTS
    requires account.status == Active
    requires IsFresh(priceTimestamp, config.priceTtlSeconds, now)
    requires IsFresh(account.lastAttestedAt, config.reserveTtlSeconds, now)
    requires Snapshot(config, account, debt, price, priceTimestamp, now).Ok?
    requires debt <= Snapshot(config, account, debt, price, priceTimestamp, now).value.creditLimitWad
    ensures Snapshot(config, account, debt, price, priceTimestamp, now).value.status in {Healthy, Warning}
  {
    var s := Snapshot(config, account, debt, price, priceTimestamp, now).value;
    if debt > 0 {
      HealthThreshold(s.creditLimitWad, debt, config.marginCallHealthBps);
      MulMono(config.marginCallHealthBps, BASIS_POINTS, debt);
      MulMono(debt, s.creditLimitWad, BASIS_POINTS);
    }
  }

  // ---- Price drops --------------------------------------------------------------

  function Severity(s: RiskStatus): nat {
    match s
    case Healthy => 0
    case Warning => 1
    case MarginCall => 2
    case _ => 3
  }

  predicate Lending(s: RiskStatus) { s.Healthy? || s.Warning? || s.MarginCall? }

  /** `lower` is what `higher` becomes at a lower price: nothing improves, and a stale or frozen status stays. */
  ghost predicate NoBetter(lower: RiskSnapshot, higher: RiskSnapshot) {
    && lower.grossReserveUsdWad <= higher.grossReserveUsdWad
    && lower.creditLimitWad <= higher.creditLimitWad
    && lower.availableCreditWad <= higher.availableCreditWad
    && lower.healthFactorBps <= higher.healthFactorBps
    && lower.healthIsInfinite == higher.healthIsInfinite
    && Severity(lower.status) >= Severity(higher.status)
    && (Lending(lower.status) <==> Lending(higher.status))
    && (!Lending(higher.status) ==> lower.status == higher.status)
  }

  lemma SnapshotMonotone(config: StoredConfig, account: ReserveAccount, debt: uint256, low: uint256, high: uint256,
                         priceTimestamp: uint64, now: uint64)
    requires low <= high && Snapshot(config, account, debt, high, priceTimestamp, now).Ok?
    ensures Snapshot(config, account, debt, low, priceTimestamp, now).Ok?
    ensures NoBetter(Snapshot(config, account, debt, low, priceTimestamp, now).value,
                     Snapshot(config, account, debt, high, priceTimestamp, now).value)
  {
    var (b, x, y) := (account.balanceDrops, BASIS_POINTS - config.haircutBps, config.advanceRateBps);
    var (g, g') := (Gross(b, low), Gross(b, high));
    MulMono(low, high, b);
    DivMono(b * low, b * high, DROPS_PER_XRP);
    var (a, a') := (Adjusted(config, g), Adjusted(config, g'));
    MulMono(g, g', x);
    DivMono(g * x, g' * x, BASIS_POINTS);
    var (l, l') := (Limit(config, a), Limit(config, a'));
    MulMono(a, a', y);
    DivMono(a * y, a' * y, BASIS_POINTS);
    if debt > 0 {
      MulMono(l, l', BASIS_POINTS);
      DivMono(l * BASIS_POINTS, l' * BASIS_POINTS, debt);
    }
  }

  /** If the current snapshot exists then so does every simulated drop, larger drops are no better,
      and a drop of 0 is the current snapshot. */
  lemma PriceDropMonotone(risk: RiskState, accounts: map<Bytes32, ReserveAccount>, env: Env, id: Bytes32, debt: uint256,
                          drop: uint256, larger: uint256)
    requires drop <= larger <= BASIS_POINTS && risk.GetSnapshot(accounts, env, id, debt).Ok?
    ensures risk.SimulatePriceDrop(accounts, env, id, debt, drop).Ok?
    ensures risk.SimulatePriceDrop(accounts, env, id, debt, larger).Ok?
    ensures NoBetter(risk.SimulatePriceDrop(accounts, env, id, debt, larger).value,
                     risk.SimulatePriceDrop(accounts, env, id, debt, drop).value)
    ensures risk.SimulatePriceDrop(accounts, env, id, debt, 0) == risk.GetSnapshot(accounts, env, id, debt)
  {
    var (p, p') := (env.priceWad * (BASIS_POINTS - larger) / BASIS_POINTS,
                    env.priceWad * (BASIS_POINTS - drop) / BASIS_POINTS);
    MulMono(BASIS_POINTS - larger, BASIS_POINTS - drop, env.priceWad);
    DivMono(env.priceWad * (BASIS_POINTS - larger), env.priceWad * (BASIS_POINTS - drop), BASIS_POINTS);
    MulMono(BASIS_POINTS - drop, BASIS_POINTS, env.priceWad);
    DivMono(env.priceWad * (BASIS_POINTS - drop), env.priceWad * BASIS_POINTS, BASIS_POINTS);
    assert p <= p' <= env.priceWad;
    assert env.priceWad * (BASIS_POINTS - 0) / BASIS_POINTS == env.priceWad;
    SnapshotMonotone(risk.config, accounts[id], debt, p', env.priceWad, env.priceTimestamp, env.now);
    SnapshotMonotone(risk.config, accounts[id], debt, p, p', env.priceTimestamp, env.now);
  }

  /** The simulated price is the price lowered by the drop and rounded down, and the answer is the snapshot at
      that price. */
  lemma PriceDropExact(risk: RiskState, accounts: map<Bytes32, ReserveAccount>, env: Env, id: Bytes32, debt: uint256,
                       drop: uint256, q: nat)
    requires drop <= 10_000 && IsFloor(q, env.priceWad * (10_000 - drop), 10_000)
    ensures q <= env.priceWad
    ensures risk.SimulatePriceDrop(accounts, env, id, debt, drop) ==
      if id in accounts then Snapshot(risk.config, accounts[id], debt, q, env.priceTimestamp, env.now)
      else Revert(AccountNotFound)
  {
    FloorUnique(q, env.priceWad * (10_000 - drop), 10_000);
    MulMono(10_000 - drop, 10_000, env.priceWad);
    FloorIff(env.priceWad * (10_000 - drop), 10_000, env.priceWad + 1);
  }

  lemma ScaledUp(q: nat, scaled: nat, b: nat)
    requires IsFloor(q, scaled, 10_000)
    ensures b * q * 10_000 <= b * scaled <= b * q * 10_000 + b * 10_000
  {
    MulMono(q * 10_000, scaled, b);
    MulMono(scaled, (q + 1) * 10_000, b);
    assert b * (q * 10_000) == b * q * 10_000 && b * ((q + 1) * 10_000) == b * q * 10_000 + b * 10_000;
  }

  /** The simulated gross value is at most the exact value after the drop, and at most balance / 10^6 + 1 below
      it; a drop of the whole price leaves nothing; a drop of more is refused. */
  lemma PriceDropGross(risk: RiskState, accounts: map<Bytes32, ReserveAccount>, env: Env, id: Bytes32, debt: uint256,
                       drop: uint256)
    ensures drop > 10_000 ==> risk.SimulatePriceDrop(accounts, env, id, debt, drop) == Revert(InvalidPriceDrop)
    ensures risk.SimulatePriceDrop(accounts, env, id, debt, drop).Ok? ==>
      && drop <= 10_000 && id in accounts
      && var (balance, s) := (accounts[id].balanceDrops,
                              risk.SimulatePriceDrop(accounts, env, id, debt, drop).value);
      && s.grossReserveUsdWad * 10_000_000_000 <= balance * (env.priceWad * (10_000 - drop))
      && balance * (env.priceWad * (10_000 - drop)) < (s.grossReserveUsdWad + 1) * 10_000_000_000 + balance * 10_000
      && (drop == 10_000 ==> s.grossReserveUsdWad == 0 && s.creditLimitWad == 0)
  {
    var s := risk.SimulatePriceDrop(accounts, env, id, debt, drop);
    if s.Ok? {
      var scaled := env.priceWad * (10_000 - drop);
      var q := scaled / 10_000;
      FloorUnique(q, scaled, 10_000);
      PriceDropExact(risk, accounts, env, id, debt, drop, q);
      SnapshotFields(risk.config, accounts[id], debt, q, env.priceTimestamp, env.now);
      ScaledUp(q, scaled, accounts[id].balanceDrops);
    }
  }

  // ---- Quotes -------------------------------------------------------------------

  function Quote(repaymentWad: nat, price: nat): nat
    requires price > 0
  {
    CeilDiv(repaymentWad * DROPS_PER_XRP, price)
  }

  /** The quote is the least number of drops that the risk engine values at the repayment or more. */
  lemma QuoteAdjoint(repaymentWad: nat, price: nat, drops: nat)
    requires price > 0
    ensures Quote(repaymentWad, price) <= drops <==> repaymentWad <= Gross(drops, price)
  {
    CeilIff(repaymentWad * DROPS_PER_XRP, price, drops);
    FloorIff(drops * price, DROPS_PER_XRP, repaymentWad);
  }

  function Sum(s: seq<nat>): nat {
    if s == [] then 0 else s[0] + Sum(s[1..])
  }

  function Quotes(parts: seq<nat>, price: nat): nat
    requires price > 0
  {
    if parts == [] then 0 else Quote(parts[0], price) + Quotes(parts[1..], price)
  }

  lemma CeilSplit(m: nat, n: nat, d: nat)
    requires d > 0
    ensures CeilDiv(m + n, d) <= CeilDiv(m, d) + CeilDiv(n, d) <= CeilDiv(m + n, d) + 1
  {
    var (x, y, z) := (CeilDiv(m, d), CeilDiv(n, d), CeilDiv(m + n, d));
    CeilIff(m, d, x); CeilIff(n, d, y); CeilIff(m + n, d, x + y);
    assert (x + y) * d == x * d + y * d;
    // m > (x-1)*d and n > (y-1)*d unless they are 0
    CeilIff(m + n, d, z);
    if x + y > z + 1 {
      CeilIff(m, d, x - 1); CeilIff(n, d, y - 1);
      assert (x - 1) * d + (y - 1) * d == (x + y - 2) * d;
      MulMono(z, x + y - 2, d);
    }
  }

  /** Splitting a repayment into several intents at one price never saves a drop and costs at most one per
      extra part. */
  lemma {:induction false} SplittingQuotes(parts: seq<nat>, price: nat)
    requires price > 0 && parts != []
    ensures Quote(Sum(parts), price) <= Quotes(parts, price) <= Quote(Sum(parts), price) + |parts| - 1
  {
    if |parts| > 1 {
      SplittingQuotes(parts[1..], price);
      CeilSplit(parts[0] * DROPS_PER_XRP, Sum(parts[1..]) * DROPS_PER_XRP, price);
      assert parts[0] * DROPS_PER_XRP + Sum(parts[1..]) * DROPS_PER_XRP == Sum(parts) * DROPS_PER_XRP;
    } else {
      assert Sum(parts[1..]) == 0;
    }
  }
}
