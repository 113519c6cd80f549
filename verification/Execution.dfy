/** The objects themselves over whole runs: what is proved of runs holds of the deployed contracts, and what
    is proved of interleavings holds of the coordinator over its store. */
module Execution {
  import opened Evm
  import opened Protocol
  import opened DeploymentPlan
  import opened Sums
  import Conservation
  import CreditVault
  import Reservations
  import Safety
  import Router = XrpRepaymentRouter
  import Worker = Coordinator
  import WorkerSafety = CoordinatorSafety
  import Store = AttestationStore

  /** Deploys the contracts and sends them any transactions, one after the other. The objects end in a state the
      protocol reaches by that run, so they satisfy every invariant. */
  method DeployAndTransact(s: Setup, txs: seq<Tx>) returns (out: Outcome<Deployment>)
    requires AllExternal(s.at, txs)
    ensures out.Ok? <==> Genesis(s).Ok?
    ensures out.Ok? ==> out.value.Valid() && Reaches(s, txs, out.value.World()) && Safety.Good(out.value.World())
    ensures out.Ok? ==> fresh(out.value) && fresh(out.value.Contracts())
  {
    var d :- DeployWithXrpRepayment(s);
    var n := 0;
    while n < |txs|
      invariant 0 <= n <= |txs|
      invariant fresh(d) && fresh(d.Contracts()) && d.Valid() && d.World() == Run(Genesis(s).value, txs[..n])
    {
      var _ := d.Transact(txs[n]);
      assert txs[..n + 1][..n] == txs[..n];
      n := n + 1;
    }
    assert txs[..n] == txs;
    Safety.ReachableGood(s, txs, d.World());
    return Ok(d);
  }

  /** The reservation and conservation results, read off the fields of the contracts. */
  method DeployedBooks(s: Setup, txs: seq<Tx>, b: Address) returns (out: Outcome<Deployment>)
    requires AllExternal(s.at, txs)
    ensures out.Ok? <==> Genesis(s).Ok?
    ensures out.Ok? ==> var d := out.value;
      && Lookup(d.vault.pendingXrpRepayments, b) == Reservations.OpenTotal(d.repaymentRouter.intents, b)
      && Lookup(d.vault.pendingXrpRepayments, b) <= d.vault.State().Principal(b)
      && MapSum(d.token.balances) == d.token.totalSupply
      && Lookup(d.token.balances, d.vault.address) + MapSum(Conservation.Principals(d.vault.State()))
         + MapSum(Conservation.AllSettled(d.repaymentRouter.intents))
         == d.token.totalSupply + Safety.DonatedOver(Genesis(s).value, txs)
  {
    var d :- DeployAndTransact(s, txs);
    Safety.ReservationsMatchIntents(s, txs, d.World(), b);
    Safety.MoneyConserved(s, txs, d.World(), b);
    return Ok(d);
  }

  /** Runs any actions through the event loop of a new coordinator over an empty store. */
  method Interleave(hub: Store.Address, actions: seq<Worker.Action>) returns (loop: Worker.EventLoop)
    ensures loop.State() == Worker.Run(Worker.Fresh(hub), actions) && WorkerSafety.Safe(loop.State())
    ensures forall hash | hash in loop.coordinator.store.table ::
      WorkerSafety.Justified(loop.seen, hub, hash, loop.coordinator.store.table[hash])
  {
    var store := new Store.SqliteAttestationStore();
    var coordinator := new Worker.XrpPaymentAttestationCoordinator(hub, store);
    loop := new Worker.EventLoop(coordinator);
    var n := 0;
    while n < |actions|
      invariant 0 <= n <= |actions|
      invariant fresh(loop) && fresh(loop.coordinator.store)
      invariant loop.State() == Worker.Run(Worker.Fresh(hub), actions[..n])
    {
      loop.Perform(actions[n]);
      assert actions[..n + 1][..n] == actions[..n];
      n := n + 1;
    }
    assert actions[..n] == actions;
    WorkerSafety.RunSafe(hub, actions);
  }
}
