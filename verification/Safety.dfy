/** The invariants together, and what follows for every run from deployment. */
module Safety {
  import opened Evm
  import opened Sums
  import opened MockUsd
  import opened CreditVault
  import opened Protocol
  import opened Wiring
  import opened Reservations
  import opened Conservation
  import opened Payments
  import opened Ledger
  import opened CreditLines
  import opened Lifecycle
  import opened AccessControl
  import Core = ReserveFlowCore
  import Router = XrpRepaymentRouter
  import Inv = InvoiceRegistry

  ghost predicate Money(w: World) {
    && Reserved(w) && SupplyHeld(w.token)
    && (forall b: Address :: DebtExplained(w.vault, w.router.intents, b))
    && forall b: Address :: WithinLimit(w.vault, b)
  }

  ghost predicate Evidence(w: World) {
    SpentOnce(w) && LedgerReplayed(w.core) && InvoicesPaid(w) && LinesOwned(w)
  }

  ghost predicate Terms(w: World) {
    InvoicesFresh(w.invoices) && QuotesHeld(w.router) && SettlementsValued(w.router)
  }

  ghost predicate Good(w: World) {
    Wired(w) && Sealed(w.token, w.at.vault) && IntentsFresh(w) && Money(w) && Evidence(w) && Terms(w)
  }

  lemma MoneyStep(w: World, tx: Tx)
    requires Wired(w) && Sealed(w.token, w.at.vault) && IntentsFresh(w) && Money(w) && tx.External(w.at)
    ensures Money(Next(w, tx))
  {
    ReservedStep(w, tx);
    SupplyStep(w, tx);
    forall b: Address ensures DebtExplained(Next(w, tx).vault, Next(w, tx).router.intents, b) { DebtStep(w, tx, b); }
    forall b: Address ensures WithinLimit(Next(w, tx).vault, b) { WithinLimitStep(w, tx, b); }
  }

  lemma GoodStep(w: World, tx: Tx)
    requires Good(w) && tx.External(w.at)
    ensures Good(Next(w, tx)) && Next(w, tx).at == w.at
  {
    WiredStep(w, tx);
    SealedStep(w, tx);
    IntentsFreshStep(w, tx);
    MoneyStep(w, tx);
    SpentOnceStep(w, tx);
    LedgerStep(w, tx);
    InvoicesPaidStep(w, tx);
    LinesOwnedStep(w, tx);
    InvoicesKeptStep(w, tx);
    QuotesStep(w, tx);
    SettlementsStep(w, tx);
  }

  lemma GenesisGood(s: Setup)
    requires Genesis(s).Ok?
    ensures Good(Genesis(s).value) && Backing(Genesis(s).value) == INITIAL_VAULT_LIQUIDITY
  {
    GenesisWired(s);
    var w := Genesis(s).value;
    MapSumRemove(w.token.balances, s.at.vault);
    assert w.token.balances - {s.at.vault} == map[];
    assert Principals(w.vault) == map[];
    assert AllSettled(w.router.intents) == map[];
    forall b: Address ensures ReservedFor(w.vault, w.router.intents, b) && DebtExplained(w.vault, w.router.intents, b) {
      assert Weights(w.router.intents, Router.Open, b) == map[];
      assert Weights(w.router.intents, Router.Settled, b) == map[];
    }
  }

  lemma {:induction false} RunGood(w: World, txs: seq<Tx>)
    requires Good(w) && AllExternal(w.at, txs)
    ensures Good(Run(w, txs)) && Run(w, txs).at == w.at
  {
    if txs != [] {
      RunGood(w, txs[..|txs| - 1]);
      GoodStep(Run(w, txs[..|txs| - 1]), txs[|txs| - 1]);
    }
  }

  lemma ReachableGood(s: Setup, txs: seq<Tx>, w: World)
    requires Reaches(s, txs, w)
    ensures Good(w) && w.at == s.at
  {
    GenesisGood(s);
    RunGood(Genesis(s).value, txs);
  }

  /** The state before the last transaction of a run. */
  lemma StepBefore(s: Setup, txs: seq<Tx>, w: World) returns (w0: World)
    requires Reaches(s, txs, w) && txs != []
    ensures Reaches(s, txs[..|txs| - 1], w0) && w == Next(w0, txs[|txs| - 1])
    ensures w0 == Run(Genesis(s).value, txs[..|txs| - 1]) && w0.at == Genesis(s).value.at
    ensures Wired(w0) && txs[|txs| - 1].External(w0.at)
  {
    GenesisGood(s);
    w0 := Run(Genesis(s).value, txs[..|txs| - 1]);
    ReachableGood(s, txs[..|txs| - 1], w0);
  }

  // ---- Money --------------------------------------------------------------------

  /** Reservations are exactly the OPEN intents and never exceed the principal. */
  lemma ReservationsMatchIntents(s: Setup, txs: seq<Tx>, w: World, b: Address)
    requires Reaches(s, txs, w)
    ensures w.vault.Pending(b) == OpenTotal(w.router.intents, b) <= w.vault.Principal(b)
  {
    ReachableGood(s, txs, w);
    assert ReservedFor(w.vault, w.router.intents, b);
  }

  ghost function DonatedOver(w: World, txs: seq<Tx>): nat {
    if txs == [] then 0
    else DonatedOver(w, txs[..|txs| - 1]) + Donated(Run(w, txs[..|txs| - 1]), txs[|txs| - 1])
  }

  lemma {:induction false} RunBacking(w: World, txs: seq<Tx>)
    requires Good(w) && AllExternal(w.at, txs)
    ensures Backing(Run(w, txs)) == Backing(w) + DonatedOver(w, txs)
  {
    if txs != [] {
      var (init, tx) := (txs[..|txs| - 1], txs[|txs| - 1]);
      RunBacking(w, init);
      RunGood(w, init);
      BackingStep(Run(w, init), tx);
    }
  }

  /** rfUSD is conserved: in total, in the vault's books, and in each borrower's account. */
  lemma MoneyConserved(s: Setup, txs: seq<Tx>, w: World, b: Address)
    requires Reaches(s, txs, w)
    ensures w.token.totalSupply == MapSum(w.token.balances) == INITIAL_VAULT_LIQUIDITY
    ensures w.token.BalanceOf(b) <= MAX_UINT256
    ensures w.token.BalanceOf(w.at.vault) + MapSum(Principals(w.vault)) + MapSum(AllSettled(w.router.intents))
         == INITIAL_VAULT_LIQUIDITY + DonatedOver(Genesis(s).value, txs)
    ensures BorrowedBy(w.vault.log, b)
      == w.vault.Principal(b) + RepaidBy(w.vault.log, b) + SettledTotal(w.router.intents, b)
    ensures w.vault.Principal(b) <= LastLimit(w.vault.log, b)
  {
    ReachableGood(s, txs, w);
    GenesisGood(s);
    RunBacking(Genesis(s).value, txs);
    BalancesFit(w.token, w.at.vault, b);
    assert DebtExplained(w.vault, w.router.intents, b) && WithinLimit(w.vault, b);
  }

  // ---- Closing intents and debts ------------------------------------------------

  /** What closing `b`'s intents relies on. */
  ghost predicate Closable(w: World, b: Address) {
    Wired(w) && IntentsFresh(w) && ReservedFor(w.vault, w.router.intents, b)
  }

  /** Whatever the router asks of the vault when it closes an OPEN intent, the vault grants. */
  lemma ClosingNeverReverts(w: World, k: Bytes32, now: uint64)
    requires k in w.router.intents && w.router.intents[k].status == Router.Open
    requires Closable(w, w.router.intents[k].borrower)
    ensures var i := w.router.intents[k];
      && i.borrower in w.vault.positions && w.vault.Pending(i.borrower) <= w.vault.positions[i.borrower].principalWad
      && w.vault.SettleXrp(w.at.repaymentRouter, now, i.borrower, i.repaymentWad).Ok?
      && w.vault.ReleaseXrp(w.at.repaymentRouter, i.borrower, i.repaymentWad).Ok?
  {
    var i := w.router.intents[k];
    MapSumBounds(Weights(w.router.intents, Router.Open, i.borrower), k);
  }

  function CancelTx(b: Address, env: Env, k: Bytes32): Tx { Tx(b, env, ToRouter(CancelRepaymentIntent(k))) }

  predicate IsCancel(tx: Tx, b: Address) {
    tx.sender == b && tx.call.ToRouter? && tx.call.router.CancelRepaymentIntent?
  }

  lemma CancelAccepted(w: World, b: Address, env: Env, k: Bytes32) returns (w': World)
    requires k in w.router.intents && w.router.intents[k].status == Router.Open && w.router.intents[k].borrower == b
    requires Closable(w, b)
    ensures StepRouter(w, CancelTx(b, env, k), CancelRepaymentIntent(k)) == Ok(w')
    ensures Next(w, CancelTx(b, env, k)) == w'
  {
    ClosingNeverReverts(w, k, env.now);
    w' := Next(w, CancelTx(b, env, k));
  }

  /** A cancellation takes one intent out of the OPEN ones and leaves the debt and the token alone. */
  lemma CancelEffect(w: World, b: Address, env: Env, k: Bytes32, w': World)
    requires IntentsFresh(w) && StepRouter(w, CancelTx(b, env, k), CancelRepaymentIntent(k)) == Ok(w')
    ensures w'.vault.Principal(b) == w.vault.Principal(b) && w'.token == w.token && w'.at == w.at
    ensures Weights(w'.router.intents, Router.Open, b) == Weights(w.router.intents, Router.Open, b) - {k}
  {
    RouterEffect(w, CancelTx(b, env, k), CancelRepaymentIntent(k));
    RouterVaultEffect(w, CancelTx(b, env, k), CancelRepaymentIntent(k));
  }

  lemma CancelKeepsClosable(w: World, b: Address, env: Env, k: Bytes32, w': World)
    requires Closable(w, b) && StepRouter(w, CancelTx(b, env, k), CancelRepaymentIntent(k)) == Ok(w')
    ensures Closable(w', b)
  {
    var (tx, c) := (CancelTx(b, env, k), CancelRepaymentIntent(k));
    RouterFrame(w, tx, c);
    RouterKeepsFresh(w, tx, c);
    RouterKeepsReserved(w, tx, c, b);
  }

  lemma {:induction false} RunCons(w: World, tx: Tx, txs: seq<Tx>)
    ensures Run(w, [tx] + txs) == Run(Next(w, tx), txs)
  {
    var all := [tx] + txs;
    if txs == [] {
      assert all[..0] == [];
    } else {
      RunCons(w, tx, txs[..|txs| - 1]);
      assert all[..|all| - 1] == [tx] + txs[..|txs| - 1];
    }
  }

  lemma OneFewer(m: map<Bytes32, nat>, k: Bytes32)
    requires k in m
    ensures |m - {k}| == |m| - 1
  {
    assert (m - {k}).Keys == m.Keys - {k};
  }

  /** One cancellation as the first step of a longer run. */
  lemma CancelOne(w: World, b: Address, env: Env, k: Bytes32) returns (tx: Tx, w': World)
    requires k in w.router.intents && w.router.intents[k].status == Router.Open && w.router.intents[k].borrower == b
    requires Closable(w, b)
    ensures IsCancel(tx, b) && Closable(w', b)
    ensures w'.vault.Principal(b) == w.vault.Principal(b) && w'.token == w.token && w'.at == w.at
    ensures |Weights(w'.router.intents, Router.Open, b)| == |Weights(w.router.intents, Router.Open, b)| - 1
    ensures Next(w, tx) == w'
  {
    tx := CancelTx(b, env, k);
    w' := CancelAccepted(w, b, env, k);
    CancelEffect(w, b, env, k, w');
    CancelKeepsClosable(w, b, env, k, w');
    OneFewer(Weights(w.router.intents, Router.Open, b), k);
  }

  ghost function OpenCount(w: World, b: Address): nat { |Weights(w.router.intents, Router.Open, b)| }

  /** Some OPEN intent of `b` is cancelled. */
  lemma CancelSome(w: World, b: Address, env: Env) returns (tx: Tx, w': World)
    requires Closable(w, b) && OpenCount(w, b) > 0
    ensures IsCancel(tx, b) && Closable(w', b) && OpenCount(w', b) == OpenCount(w, b) - 1
    ensures w'.vault.Principal(b) == w.vault.Principal(b) && w'.token == w.token && w'.at == w.at
    ensures Next(w, tx) == w'
  {
    var k :| k in Weights(w.router.intents, Router.Open, b);
    tx, w' := CancelOne(w, b, env, k);
  }

  /** One cancellation per OPEN intent releases everything a borrower has reserved. */
  lemma {:induction false} CancelAll(w: World, b: Address, env: Env) returns (txs: seq<Tx>, w': World)
    requires Closable(w, b)
    ensures |txs| == |Weights(w.router.intents, Router.Open, b)| && w' == Run(w, txs)
    ensures forall tx | tx in txs :: IsCancel(tx, b)
    ensures Released(w, w', b)
    decreases OpenCount(w, b)
  {
    if OpenCount(w, b) == 0 {
      NothingReserved(w, b);
      txs, w' := [], w;
    } else {
      var tx, w1 := CancelSome(w, b, env);
      var rest;
      rest, w' := CancelAll(w1, b, env);
      txs := [tx] + rest;
      RunCons(w, tx, rest);
    }
  }

  /** Nothing is reserved any more, and nothing but reservations and intents has moved. */
  ghost predicate Released(w: World, w': World, b: Address) {
    w'.vault.Pending(b) == 0 && w'.vault.Principal(b) == w.vault.Principal(b) && w'.token == w.token && w'.at == w.at
  }

  lemma NothingReserved(w: World, b: Address)
    requires ReservedFor(w.vault, w.router.intents, b) && OpenCount(w, b) == 0
    ensures Released(w, w, b)
  {}

  /** From every reachable state a borrower can cancel and then repay the whole principal, whatever the pause
      flag, the price and the risk status, given the rfUSD and the allowance. */
  lemma DebtCanBeCleared(s: Setup, before: seq<Tx>, w: World, b: Address, env: Env) returns (txs: seq<Tx>, w': World)
    requires Reaches(s, before, w) && b != ZERO_ADDRESS && b !in w.at.All()
    requires 0 < w.vault.Principal(b) <= w.token.BalanceOf(b)
    requires w.vault.Principal(b) <= w.token.Allowance(b, w.at.vault)
    ensures w' == Run(w, txs) && forall tx | tx in txs :: IsCancel(tx, b)
    ensures forall env': Env ::
      var repaid := StepVault(w', Tx(b, env', ToVault(Repay(w.vault.Principal(b)))), Repay(w.vault.Principal(b)));
      repaid.Ok? && repaid.value.vault.Principal(b) == 0
  {
    ReachableGood(s, before, w);
    assert ReservedFor(w.vault, w.router.intents, b);
    txs, w' := CancelAll(w, b, env);
    RunGood(w, txs);
    forall env': Env
      ensures var repaid := StepVault(w', Tx(b, env', ToVault(Repay(w.vault.Principal(b)))),
                                      Repay(w.vault.Principal(b)));
        repaid.Ok? && repaid.value.vault.Principal(b) == 0
    {
      WholeRepaymentAccepted(w', b, env');
    }
  }

  lemma WholeRepaymentAccepted(w: World, b: Address, env: Env)
    requires Wired(w) && b != ZERO_ADDRESS && w.vault.Pending(b) == 0
    requires 0 < w.vault.Principal(b) <= w.token.BalanceOf(b)
    requires w.vault.Principal(b) <= w.token.Allowance(b, w.at.vault)
    ensures var repaid := StepVault(w, Tx(b, env, ToVault(Repay(w.vault.Principal(b)))), Repay(w.vault.Principal(b)));
      repaid.Ok? && repaid.value.vault.Principal(b) == 0
  {
    assert w.at.vault in w.at.All() && w.at.token in w.at.All();
  }

  // ---- Proofs -------------------------------------------------------------------

  /** The XRPL transaction a proof id stands for. */
  function XrplTx(id: Bytes32): Bytes32 { if id.ProofId? then id.transactionId else id }

  lemma DistinctTransactions(w: World)
    requires SpentOnce(w)
    ensures forall i, j | 0 <= i < j < |w.core.log| :: XrplTx(w.core.log[i].proofId) != XrplTx(w.core.log[j].proofId)
    ensures forall i, j | 0 <= i < j < |w.router.log| ::
      XrplTx(w.router.log[i].proofId) != XrplTx(w.router.log[j].proofId)
    ensures forall i, j | 0 <= i < |w.core.log| && 0 <= j < |w.router.log| ::
      XrplTx(w.core.log[i].proofId) != XrplTx(w.router.log[j].proofId)
  {
    assert forall e | e in w.core.log :: e.proofId in CoreIds(w.core.log);
    assert forall e | e in w.router.log :: e.proofId in RouterIds(w.router.log);
  }

  /** One XRPL transaction moves at most one reserve account or clears at most one debt, once. The global set
      is exactly the accepted ids if and only if nobody but the core and the router has consumed a proof. */
  lemma ExactlyOnce(s: Setup, txs: seq<Tx>, w: World)
    requires Reaches(s, txs, w)
    ensures forall i, j | 0 <= i < j < |w.core.log| :: XrplTx(w.core.log[i].proofId) != XrplTx(w.core.log[j].proofId)
    ensures forall i, j | 0 <= i < j < |w.router.log| ::
      XrplTx(w.router.log[i].proofId) != XrplTx(w.router.log[j].proofId)
    ensures forall i, j | 0 <= i < |w.core.log| && 0 <= j < |w.router.log| ::
      XrplTx(w.core.log[i].proofId) != XrplTx(w.router.log[j].proofId)
    ensures w.core.usedProofs == CoreIds(w.core.log) <= w.registry.consumed
    ensures w.registry.consumed == CoreIds(w.core.log) + RouterIds(w.router.log) <==>
      OutsideIds(w.registry.log, w.at) == {}
  {
    ReachableGood(s, txs, w);
    DistinctTransactions(w);
  }

  predicate GrantsOutside(at: Addresses, tx: Tx) {
    && tx.call.ToRegistry?
    && match tx.call.registry
       case SetProofConsumer(a, allowed) => allowed && a != at.core && a != at.repaymentRouter
       case ChangeRegistryRole(op) =>
         op.GrantRole? && op.role.Operator? && op.account != at.core && op.account != at.repaymentRouter
       case _ => false
  }

  lemma ConsumersStep(w: World, tx: Tx)
    requires Wired(w) && tx.External(w.at) && (GrantsOutside(w.at, tx) ==> Step(w, tx).Revert?)
    requires w.registry.roles.operators <= {w.at.core, w.at.repaymentRouter} && OutsideIds(w.registry.log, w.at) == {}
    ensures Next(w, tx).registry.roles.operators <= {w.at.core, w.at.repaymentRouter}
    ensures OutsideIds(Next(w, tx).registry.log, w.at) == {}
  {
    assert w.at.core in w.at.All() && w.at.repaymentRouter in w.at.All();
    if Step(w, tx).Ok? {
      match tx.call
      case ToCore(c) => CoreFrame(w, tx, c); if IsSubmission(c) { SubmissionSpends(w, tx, c); }
      case ToVault(c) => VaultFrame(w, tx, c);
      case ToRouter(c) => RouterFrame(w, tx, c); if c.SettleRepaymentWithProof? { SettlementSpends(w, tx, c); }
      case _ => {}
    }
  }

  /** No transaction of the run succeeds in giving the consumer role to another account; it may be tried. */
  ghost predicate NoOutsideGrant(w: World, txs: seq<Tx>) {
    forall n | 0 <= n < |txs| :: GrantsOutside(w.at, txs[n]) ==> Step(Run(w, txs[..n]), txs[n]).Revert?
  }

  lemma NothingConsumedAtFirst(s: Setup)
    requires Genesis(s).Ok?
    ensures var w := Genesis(s).value;
      w.registry.log == [] && w.registry.roles.operators <= {w.at.core, w.at.repaymentRouter}
  {}

  lemma NoGrantBefore(w: World, txs: seq<Tx>)
    requires NoOutsideGrant(w, txs) && txs != []
    ensures var (init, tx) := (txs[..|txs| - 1], txs[|txs| - 1]);
      NoOutsideGrant(w, init) && (GrantsOutside(w.at, tx) ==> Step(Run(w, init), tx).Revert?)
  {
    var init := txs[..|txs| - 1];
    assert forall n | 0 <= n < |init| :: init[..n] == txs[..n];
  }

  lemma {:induction false} ConsumersStay(s: Setup, txs: seq<Tx>, w: World)
    requires Reaches(s, txs, w) && NoOutsideGrant(Genesis(s).value, txs)
    ensures w.registry.roles.operators <= {w.at.core, w.at.repaymentRouter} && OutsideIds(w.registry.log, w.at) == {}
    decreases |txs|
  {
    if txs == [] {
      NothingConsumedAtFirst(s);
    } else {
      NoGrantBefore(Genesis(s).value, txs);
      var w0 := StepBefore(s, txs, w);
      ConsumersStay(s, txs[..|txs| - 1], w0);
      ConsumersStep(w0, txs[|txs| - 1]);
    }
  }

  /** As long as the consumer role stays with the core and the router, consumed proofs are the accepted ones. */
  lemma ConsumedAreAccepted(s: Setup, txs: seq<Tx>, w: World)
    requires Reaches(s, txs, w) && NoOutsideGrant(Genesis(s).value, txs)
    ensures w.registry.roles.operators <= {w.at.core, w.at.repaymentRouter} && OutsideIds(w.registry.log, w.at) == {}
    ensures w.registry.consumed == CoreIds(w.core.log) + RouterIds(w.router.log)
  {
    ConsumersStay(s, txs, w);
    ExactlyOnce(s, txs, w);
  }

  // ---- Ledger -------------------------------------------------------------------

  /** Every account is the consistent replay of its own events, at strictly increasing block numbers. */
  lemma LedgerIsReplay(s: Setup, txs: seq<Tx>, w: World, id: Bytes32)
    requires Reaches(s, txs, w)
    ensures Replay(w.core.log, id) == MarksOf(w.core, id)
    ensures forall n: nat | n <= |w.core.log| :: Replay(w.core.log[..n], id) != Inconsistent
    ensures forall i: nat, j: nat | i < j < |w.core.log| && w.core.log[i].accountId == w.core.log[j].accountId == id ::
      w.core.log[i].externalLedger < w.core.log[j].externalLedger
  {
    ReachableGood(s, txs, w);
    forall n: nat | n <= |w.core.log| ensures Replay(w.core.log[..n], id) != Inconsistent {
      PrefixConsistent(w.core.log, id, n);
    }
    forall i: nat, j: nat | i < j < |w.core.log| && w.core.log[i].accountId == w.core.log[j].accountId == id
      ensures w.core.log[i].externalLedger < w.core.log[j].externalLedger
    {
      BlockNumbersIncrease(w.core.log, id, i, j);
    }
  }

  /** `tx` carried a verified proof of exactly the payment that `e` reports. */
  predicate Backs(tx: Tx, e: Core.ReserveUpdate) {
    && tx.call.ToCore? && IsSubmission(tx.call.core) && tx.env.proofValid
    && var p := tx.call.core.p;
    && tx.call.core.id == e.accountId && p.Id() == e.proofId && p.sourceId == TEST_XRP && p.proofOwner == tx.sender
    && p.blockNumber == e.externalLedger && p.blockTimestamp == e.attestedAt
    && e.amountDrops == (if e.incoming then p.receivedAmount else p.spentAmount)
  }

  lemma StepBacks(w: World, tx: Tx, n: nat)
    requires Wired(w) && |w.core.log| <= n < |Next(w, tx).core.log|
    ensures Backs(tx, Next(w, tx).core.log[n])
  {
    if tx.call.ToCore? {
      if IsSubmission(tx.call.core) {
        SubmissionEffect(w, tx, tx.call.core);
      } else {
        OtherCallsKeepMarks(w, tx, tx.call.core);
      }
    } else {
      AccountsStay(w, tx);
    }
  }

  lemma LogGrows(w: World, tx: Tx)
    requires Wired(w)
    ensures w.core.log <= Next(w, tx).core.log
  {
    if tx.call.ToCore? {
      if Step(w, tx).Ok? {
        if IsSubmission(tx.call.core) {
          SubmissionEffect(w, tx, tx.call.core);
        } else {
          OtherCallsKeepMarks(w, tx, tx.call.core);
        }
      }
    } else {
      AccountsStay(w, tx);
    }
  }

  lemma NoEventsAtFirst(s: Setup)
    requires Genesis(s).Ok?
    ensures Genesis(s).value.core.log == []
  {}

  /** Every event of the reserve log goes back to a transaction of the run whose proof was verified. */
  lemma {:induction false} EventsVerified(s: Setup, txs: seq<Tx>, w: World, n: nat) returns (i: nat)
    requires Reaches(s, txs, w) && n < |w.core.log|
    ensures i < |txs| && Backs(txs[i], w.core.log[n])
    decreases |txs|
  {
    NoEventsAtFirst(s);
    var w0 := StepBefore(s, txs, w);
    LogGrows(w0, txs[|txs| - 1]);
    if n < |w0.core.log| {
      i := EventsVerified(s, txs[..|txs| - 1], w0, n);
    } else {
      StepBacks(w0, txs[|txs| - 1], n);
      i := |txs| - 1;
    }
  }

  /** A borrow is always backed: an ACTIVE account of the borrower, and a verified payment within the TTL. */
  lemma BorrowNeedsVerifiedPayment(s: Setup, txs: seq<Tx>, w: World, tx: Tx, amount: uint256) returns (n: nat, i: nat)
    requires Reaches(s, txs, w) && tx.call == ToVault(Borrow(amount)) && Step(w, tx).Ok?
    ensures tx.sender in w.vault.positions && n < |w.core.log| && i < |txs|
    ensures var id := w.vault.positions[tx.sender].reserveAccountId;
      && id in w.core.accounts && w.core.accounts[id].borrower == tx.sender && w.core.accounts[id].status == Core.Active
      && w.core.log[n].accountId == id && Backs(txs[i], w.core.log[n])
      && tx.env.now <= w.core.log[n].attestedAt + w.risk.config.reserveTtlSeconds
  {
    ReachableGood(s, txs, w);
    n := BorrowBacked(w, tx, amount);
    i := EventsVerified(s, txs, w, n);
  }

  /** A settled invoice matches exactly one reserve event, and no other settled invoice matches that event. */
  lemma SettledInvoiceHasOneEvent(s: Setup, txs: seq<Tx>, w: World, k: Bytes32) returns (n: nat)
    requires Reaches(s, txs, w) && k in w.invoices.invoices && w.invoices.invoices[k].status == Inv.Settled
    ensures n < |w.core.log| && PaidBy(w.invoices.invoices[k], w.core.log[n])
    ensures forall m: nat | m < |w.core.log| && w.core.log[m].proofId == w.invoices.invoices[k].settledProofId :: m == n
    ensures forall k' | k' in w.invoices.invoices && w.invoices.invoices[k'].status == Inv.Settled
      && w.invoices.invoices[k'].settledProofId == w.core.log[n].proofId :: k' == k
  {
    ReachableGood(s, txs, w);
    assert HasPayment(w.invoices.invoices[k], w.core.log);
    n :| 0 <= n < |w.core.log| && PaidBy(w.invoices.invoices[k], w.core.log[n]);
  }

  // ---- Lifecycle ----------------------------------------------------------------

  lemma KeptTransitive(a: Intents, b: Intents, c: Intents, x: Invoices, y: Invoices, z: Invoices)
    requires IntentsKept(a, b) && IntentsKept(b, c) && InvoicesKept(x, y) && InvoicesKept(y, z)
    ensures IntentsKept(a, c) && InvoicesKept(x, z)
  {}

  /** Along any continuation of a run no intent or invoice disappears, changes its terms, or leaves a closed status. */
  lemma {:induction false} TermsNeverChange(w: World, txs: seq<Tx>)
    requires Good(w) && AllExternal(w.at, txs)
    ensures IntentsKept(w.router.intents, Run(w, txs).router.intents)
    ensures InvoicesKept(w.invoices.invoices, Run(w, txs).invoices.invoices)
  {
    if txs != [] {
      var (init, tx) := (txs[..|txs| - 1], txs[|txs| - 1]);
      var w1 := Run(w, init);
      TermsNeverChange(w, init);
      RunGood(w, init);
      IntentsKeptStep(w1, tx);
      InvoicesKeptStep(w1, tx);
      KeptTransitive(w.router.intents, w1.router.intents, Next(w1, tx).router.intents,
                     w.invoices.invoices, w1.invoices.invoices, Next(w1, tx).invoices.invoices);
    }
  }

  /** Over any run the drops received for settled intents were worth at least the principal they cleared. */
  lemma SettlementsCoverPrincipal(s: Setup, txs: seq<Tx>, w: World)
    requires Reaches(s, txs, w)
    ensures ReceivedValue(w.router.log, w.router.quotedPrice) >= Cleared(w.router.log)
      == MapSum(AllSettled(w.router.intents))
  {
    ReachableGood(s, txs, w);
  }
}
