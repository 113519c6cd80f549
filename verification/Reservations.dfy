/** The router's OPEN intents and the vault's reservations are the same amount. */
module Reservations {
  import opened Evm
  import opened Sums
  import opened CreditVault
  import opened Protocol
  import opened Wiring
  import Router = XrpRepaymentRouter

  type Intents = map<Bytes32, Router.RepaymentIntent>

  /** What each of `b`'s intents in status `s` repays. */
  ghost function Weights(intents: Intents, s: Router.RepaymentStatus, b: Address): map<Bytes32, nat> {
    map k | k in intents && intents[k].status == s && intents[k].borrower == b :: intents[k].repaymentWad
  }

  ghost function OpenTotal(intents: Intents, b: Address): nat { MapSum(Weights(intents, Router.Open, b)) }
  ghost function SettledTotal(intents: Intents, b: Address): nat { MapSum(Weights(intents, Router.Settled, b)) }

  /** Every id is the hash of its own terms and of a nonce the borrower has already used. */
  ghost predicate IntentsFresh(w: World) {
    forall k | k in w.router.intents ::
      var i := w.router.intents[k];
      && k.IntentId? && k.payer == i.borrower && k.accountId == i.reserveAccountId && k.memo == i.memoHash
      && k.nonce < Lookup(w.router.nextNonce, i.borrower) && i.repaymentWad > 0
  }

  ghost predicate ReservedFor(v: VaultState, intents: Intents, b: Address) {
    v.Pending(b) == OpenTotal(intents, b) <= v.Principal(b)
  }

  ghost predicate Reserved(w: World) {
    forall b: Address :: ReservedFor(w.vault, w.router.intents, b)
  }

  lemma IntentsFreshStep(w: World, tx: Tx)
    requires Wired(w) && IntentsFresh(w)
    ensures IntentsFresh(Next(w, tx))
  {
    if Step(w, tx).Ok? {
      match tx.call
      case ToCore(c) => CoreFrame(w, tx, c);
      case ToVault(c) => VaultFrame(w, tx, c);
      case ToRouter(c) => RouterKeepsFresh(w, tx, c);
      case _ => {}
    }
  }

  lemma CreateKeepsFresh(w: World, tx: Tx, c: RouterCall)
    requires IntentsFresh(w) && c.CreateRepaymentIntent? && StepRouter(w, tx, c).Ok?
    ensures IntentsFresh(StepRouter(w, tx, c).value)
  {}

  lemma CloseKeepsFresh(w: World, tx: Tx, c: RouterCall)
    requires IntentsFresh(w) && !c.CreateRepaymentIntent? && StepRouter(w, tx, c).Ok?
    ensures IntentsFresh(StepRouter(w, tx, c).value)
  {}

  lemma RouterKeepsFresh(w: World, tx: Tx, c: RouterCall)
    requires IntentsFresh(w) && StepRouter(w, tx, c).Ok?
    ensures IntentsFresh(StepRouter(w, tx, c).value)
  {
    if c.CreateRepaymentIntent? { CreateKeepsFresh(w, tx, c); } else { CloseKeepsFresh(w, tx, c); }
  }

  /** One intent entering or leaving a status moves that status' total by its own amount. */
  lemma StatusMove(intents: Intents, k: Bytes32, i: Router.RepaymentIntent, s: Router.RepaymentStatus, b: Address)
    requires k in intents ==> intents[k].repaymentWad == i.repaymentWad && intents[k].borrower == i.borrower
    ensures MapSum(Weights(intents[k := i], s, b))
      + (if k in intents && intents[k].status == s && i.borrower == b then i.repaymentWad else 0)
         == MapSum(Weights(intents, s, b)) + (if i.status == s && i.borrower == b then i.repaymentWad else 0)
  {
    var before, after := Weights(intents, s, b), Weights(intents[k := i], s, b);
    MapSumSet(before, k, i.repaymentWad);
    if i.status == s && i.borrower == b {
      assert after == before[k := i.repaymentWad];
    } else {
      assert after == before - {k};
    }
  }

  lemma ReservedStep(w: World, tx: Tx)
    requires Wired(w) && IntentsFresh(w) && Reserved(w) && tx.External(w.at)
    ensures Reserved(Next(w, tx))
  {
    assert tx.sender != w.at.repaymentRouter by { assert w.at.repaymentRouter in w.at.All(); }
    forall b: Address ensures ReservedFor(Next(w, tx).vault, Next(w, tx).router.intents, b) {
      ReservedStepFor(w, tx, b);
    }
  }

  lemma ReservedStepFor(w: World, tx: Tx, b: Address)
    requires Wired(w) && IntentsFresh(w) && tx.sender != w.at.repaymentRouter
    requires ReservedFor(w.vault, w.router.intents, b)
    ensures ReservedFor(Next(w, tx).vault, Next(w, tx).router.intents, b)
  {
    if Step(w, tx).Ok? {
      match tx.call
      case ToCore(c) => CoreFrame(w, tx, c);
      case ToVault(c) => VaultKeepsReserved(w, tx, c, b);
      case ToRouter(c) => RouterKeepsReserved(w, tx, c, b);
      case _ => {}
    }
  }

  lemma VaultKeepsReserved(w: World, tx: Tx, c: VaultCall, b: Address)
    requires Wired(w) && tx.sender != w.at.repaymentRouter && StepVault(w, tx, c).Ok?
    requires ReservedFor(w.vault, w.router.intents, b)
    ensures var w' := StepVault(w, tx, c).value; w'.router == w.router && ReservedFor(w'.vault, w.router.intents, b)
  {}

  /** The one intent a router call writes. */
  function Touched(w: World, tx: Tx, c: RouterCall): Bytes32 {
    match c
    case CreateRepaymentIntent(a, wad, memo, exp) => IntentId(tx.sender, a, memo, Lookup(w.router.nextNonce, tx.sender))
    case SettleRepaymentWithProof(id, p) => id
    case CancelRepaymentIntent(id) => id
    case ExpireRepaymentIntent(id) => id
  }

  /** A created intent takes an unused id; every other call closes an OPEN intent and keeps its terms. */
  lemma RouterEffect(w: World, tx: Tx, c: RouterCall)
    requires IntentsFresh(w) && StepRouter(w, tx, c).Ok?
    ensures var w' := StepRouter(w, tx, c).value;
      var (id, before, after) := (Touched(w, tx, c), w.router.intents, w'.router.intents);
      && id in after && after == before[id := after[id]]
      && (c.CreateRepaymentIntent? ==>
        id !in before && after[id].status == Router.Open && after[id].borrower == tx.sender)
      && (!c.CreateRepaymentIntent? ==> id in before && before[id].status == Router.Open)
      && (!c.CreateRepaymentIntent? ==>
        after[id] == before[id].(status := after[id].status, settledProofId := after[id].settledProofId))
      && (c.SettleRepaymentWithProof? <==> after[id].status == Router.Settled)
      && (c.CancelRepaymentIntent? <==> after[id].status == Router.Cancelled)
      && (c.ExpireRepaymentIntent? <==> after[id].status == Router.Expired)
  {}

  lemma RouterVaultEffect(w: World, tx: Tx, c: RouterCall)
    requires IntentsFresh(w) && StepRouter(w, tx, c).Ok?
    ensures var (v, v') := (w.vault, StepRouter(w, tx, c).value.vault);
      var i := StepRouter(w, tx, c).value.router.intents[Touched(w, tx, c)];
      var (b, wad) := (i.borrower, i.repaymentWad);
      && (c.CreateRepaymentIntent? ==>
        v.Pending(b) + wad <= v.Principal(b) && v' == v.(pending := v.pending[b := v.Pending(b) + wad]))
      && (!c.CreateRepaymentIntent? ==> wad <= v.Pending(b) && v'.pending == v.pending[b := v.Pending(b) - wad])
      && (c.SettleRepaymentWithProof? ==> b in v.positions && wad <= v.Principal(b))
      && (c.SettleRepaymentWithProof? ==> v'.positions == v.positions[b := v.positions[b]
            .(principalWad := v.Principal(b) - wad, lastRiskSyncAt := tx.env.now)])
      && (c.SettleRepaymentWithProof? ==>
        v'.log == v.log + [XrpRepaid(b, v.positions[b].reserveAccountId, wad, v.Principal(b) - wad)])
      && (!c.SettleRepaymentWithProof? ==> v'.positions == v.positions && v'.log == v.log)
  {
    RouterEffect(w, tx, c);
  }

  lemma RouterKeepsReserved(w: World, tx: Tx, c: RouterCall, b: Address)
    requires IntentsFresh(w) && StepRouter(w, tx, c).Ok?
    requires ReservedFor(w.vault, w.router.intents, b)
    ensures var w' := StepRouter(w, tx, c).value; ReservedFor(w'.vault, w'.router.intents, b)
  {
    RouterEffect(w, tx, c);
    RouterVaultEffect(w, tx, c);
    var (id, before, after) := (Touched(w, tx, c), w.router.intents, StepRouter(w, tx, c).value.router.intents);
    StatusMove(before, id, after[id], Router.Open, b);
  }
}
