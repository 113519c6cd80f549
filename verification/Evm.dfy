/** The execution model shared by every contract: word-sized integers, hashes,
    reverts, the inputs a transaction reads from outside, and rounding division. */
module Evm {
  const MAX_UINT256: nat := 0xFFFF_FFFF_FFFF_FFFF_FFFF_FFFF_FFFF_FFFF_FFFF_FFFF_FFFF_FFFF_FFFF_FFFF_FFFF_FFFF
  const MAX_INT256: int := 0x7FFF_FFFF_FFFF_FFFF_FFFF_FFFF_FFFF_FFFF_FFFF_FFFF_FFFF_FFFF_FFFF_FFFF_FFFF_FFFF

  type uint256 = n: nat | n <= MAX_UINT256
  type int256 = i: int | -MAX_INT256 - 1 <= i <= MAX_INT256
  type uint64 = n: nat | n <= 0xFFFF_FFFF_FFFF_FFFF
  type uint16 = n: nat | n <= 0xFFFF
  type uint8 = n: nat | n <= 0xFF
  type Address = n: nat | n < 0x1_0000_0000_0000_0000_0000_0000_0000_0000_0000_0000

  const ZERO_ADDRESS: Address := 0

  /** A 32-byte word. Each `keccak256` the contracts compute is its own constructor: injective in its
      arguments, never zero, and never the result of another use. The last is more than an injective
      hash gives, because the memo bytes of `MemoHash` could spell the arguments of another use; no
      result depends on it: a memo hash is only ever compared with the word an intent or invoice stores. */
  datatype Bytes32 =
    | Word(value: uint256)
    | AccountId(borrower: Address, sourceId: Bytes32, externalAddressHash: Bytes32)
    | IntentId(payer: Address, accountId: Bytes32, memo: Bytes32, nonce: nat)
    | InvoiceId(issuer: Address, reserveId: Bytes32, payerHash: Bytes32, memo: Bytes32, nonce: nat)
    | ProofId(source: Bytes32, transactionId: Bytes32)
    | MemoHash(data: seq<uint8>)

  const ZERO_BYTES32: Bytes32 := Word(0)
  // The ASCII text "testXRP", left-aligned in 32 bytes.
  const TEST_XRP: Bytes32 := Word(0x7465_7374_5852_5000_0000_0000_0000_0000_0000_0000_0000_0000_0000_0000_0000_0000)
  const COSTON2_CHAIN_ID: nat := 114

  /** The custom errors of the contracts, plus `Panic` for checked arithmetic. */
  datatype Error =
    | Panic | UnsupportedChain | ZeroAddress | ZeroValue | ZeroAmount | UnauthorizedAccount | BadConfirmation
    // ReserveFlowCore
    | BorrowerNotApproved | AccountAlreadyExists | AccountNotFound | AccountNotPendingApproval | AccountNotFrozen
    | AccountNotActive | InvalidFdcProof | UnsupportedProofSource | UnauthorizedProofSubmitter | ProofOwnerMismatch
    | InvalidPaymentStatus | AccountAddressMismatch | InvalidPaymentAmount | InsufficientReserveBalance
    | ProofAlreadyUsed | OutOfOrderLedger | ProofRegistryNotConfigured | InvoiceRegistryNotConfigured
    | IntegrationAlreadyConfigured
    // XrpProofRegistry and InvoiceRegistry
    | ProofAlreadyConsumed | InvalidDueAt | InvoiceNotFound | InvoiceNotOpen | OnlyCore | OnlyBorrower
    | PayerMismatch | PaymentAmountTooLow | MemoMismatch | InvoicePastDue
    // RiskEngine
    | InvalidPriceDrop | UnauthorizedRiskAdmin | InvalidRiskConfig
    // MockUSD (ERC-20)
    | InvalidSender | InvalidReceiver | InvalidApprover | InvalidSpender | InsufficientBalance | InsufficientAllowance
    // CreditVault
    | TokenAlreadySet | TokenNotSet | CreditLineAlreadyOpen | CreditLineNotOpen | UnauthorizedReserveAccount
    | BorrowingPaused | CreditNotHealthy | StalePrice | StaleReserve | AccountFrozen | CreditLimitExceeded
    | ExcessRepayment | InsufficientRfUsdAllowance | InsufficientRfUsdBalance | RepaymentRouterAlreadySet
    | UnauthorizedRepaymentRouter | RepaymentReserved
    // XrpRepaymentRouter and DeploymentPlan
    | IntentNotFound | IntentNotOpen | IntentExpired | InvalidCollectionAddress | PaymentAmountMismatch
    | CreditLineMismatch | RepaymentExceedsPrincipal | PriceStale | InvalidApprovedBorrower

  datatype Outcome<+T> = Ok(value: T) | Revert(error: Error) {
    predicate IsFailure() { Revert? }
    function PropagateFailure<U>(): Outcome<U> requires Revert? { Revert(error) }
    function Extract(): T requires Ok? { value }
  }

  function Require(condition: bool, error: Error): Outcome<()> {
    if condition then Ok(()) else Revert(error)
  }

  /** `out`, returned by a method that left the state `post`, is what `spec` said:
      the same error, or success in exactly the specified state. */
  ghost predicate Tracks<T, U>(out: Outcome<U>, spec: Outcome<T>, post: T) {
    match out
    case Ok(_) => spec == Ok(post)
    case Revert(e) => spec == Revert(e)
  }

  /** What a transaction reads from outside the modelled contracts: the block time, the
      FTSO answer, and the verifier's answer on the proof the transaction carries. */
  datatype Env = Env(now: uint64, priceWad: uint256, priceTimestamp: uint64, proofValid: bool)

  /** The fields of an FDC `XRPPayment` response that the contracts read. */
  datatype Payment = Payment(
    sourceId: Bytes32, transactionId: Bytes32, proofOwner: Address,
    blockNumber: uint64, blockTimestamp: uint64,
    sourceAddressHash: Bytes32, receivingAddressHash: Bytes32,
    spentAmount: int256, receivedAmount: int256,
    firstMemoData: seq<uint8>, status: uint8)
  {
    function Id(): Bytes32 { ProofId(sourceId, transactionId) }
  }

  function Lookup<K>(m: map<K, nat>, k: K): nat {
    if k in m then m[k] else 0
  }

  // ---- OpenZeppelin Math.mulDiv -------------------------------------------------

  function MulDiv(x: nat, y: nat, d: nat): Outcome<uint256> {
    if d == 0 || x * y / d > MAX_UINT256 then Revert(Panic) else Ok(x * y / d)
  }

  function CeilDiv(n: nat, d: nat): nat
    requires d > 0
  {
    if n % d == 0 then n / d else n / d + 1
  }

  function MulDivCeil(x: nat, y: nat, d: nat): Outcome<uint256> {
    if d == 0 || CeilDiv(x * y, d) > MAX_UINT256 then Revert(Panic) else Ok(CeilDiv(x * y, d))
  }
}

/** Sums over finite maps. */
module Sums {
  ghost function MapSum<K(!new)>(m: map<K, nat>): nat {
    if m == map[] then 0 else
      var k :| k in m;
      m[k] + MapSum(m - {k})
  }

  /** The sum does not depend on the order in which keys are taken out. */
  lemma {:induction false} MapSumRemove<K(!new)>(m: map<K, nat>, k: K)
    requires k in m
    ensures MapSum(m) == m[k] + MapSum(m - {k})
    decreases |m|
  {
    var j :| j in m && MapSum(m) == m[j] + MapSum(m - {j});
    if j != k {
      MapSumRemove(m - {j}, k);
      MapSumRemove(m - {k}, j);
      assert m - {j} - {k} == m - {k} - {j};
    }
  }

  lemma MapSumSet<K(!new)>(m: map<K, nat>, k: K, v: nat)
    ensures MapSum(m[k := v]) == MapSum(m - {k}) + v
    ensures MapSum(m) == MapSum(m - {k}) + if k in m then m[k] else 0
  {
    assert m[k := v] - {k} == m - {k};
    MapSumRemove(m[k := v], k);
    if k in m { MapSumRemove(m, k); } else { assert m - {k} == m; }
  }

  lemma MapSumBounds<K(!new)>(m: map<K, nat>, k: K)
    requires k in m
    ensures m[k] <= MapSum(m)
  {
    MapSumRemove(m, k);
  }
}

/** Exact characterisations of floor and ceiling division. */
module Rounding {
  import opened Evm

  lemma FloorIff(n: nat, d: nat, q: nat)
    requires d > 0
    ensures q <= n / d <==> q * d <= n
  {
    var f, r := n / d, n % d;
    assert n == f * d + r;
    if q <= f { MulMono(q, f, d); }
    if f + 1 <= q { MulMono(f + 1, q, d); }
  }

  lemma CeilIff(n: nat, d: nat, q: nat)
    requires d > 0
    ensures CeilDiv(n, d) <= q <==> n <= q * d
  {
    var f, r := n / d, n % d;
    assert n == f * d + r;
    if f + 1 <= q { MulMono(f + 1, q, d); }
    if q <= f { MulMono(q, f, d); }
  }

  lemma MulMono(a: nat, b: nat, c: nat)
    requires a <= b
    ensures a * c <= b * c && c * a <= c * b
  {
    assert b * c - a * c == (b - a) * c;
  }

  lemma DivMono(a: nat, b: nat, d: nat)
    requires a <= b && d > 0
    ensures a / d <= b / d
  {
    FloorIff(a, d, a / d);
    FloorIff(b, d, a / d);
  }
}
