/** attestation-store.ts: one record per FDC request, and the transitions its status may make. */
module AttestationStore {
  datatype Option<+T> = None | Some(value: T)

  type Address = nat
  datatype AccountId = Account(n: nat)
  datatype TransactionHash = Transaction(n: nat)
  type Bytes = seq<nat>

  /** A request id. `Keccak` stands for the hash of the request bytes. */
  datatype ProofId = Keccak(data: Bytes) | Other(n: nat)

  datatype Status =
    | Preparing | ReadyToSubmit | Submitted | WaitingFinalization | FetchingProof | ProofReady
    | Verified | Failed | Expired

  predicate Terminal(s: Status) { s.Verified? || s.Failed? || s.Expired? }

  const NON_TERMINAL: set<Status> := {Preparing, ReadyToSubmit, Submitted, WaitingFinalization, FetchingProof,
                                      ProofReady}

  datatype Failure = Failure(code: string, message: string)
  datatype Purpose = ReserveUpdate | InvoiceSettlement | XrpRepayment

  datatype Record = Record(
    id: ProofId, accountId: AccountId, txHash: TransactionHash, requestBytesHash: ProofId,
    requestBytes: Option<Bytes>, proofOwner: Option<Address>, requiredFeeWei: Option<int>, expiresAt: Option<int>,
    purpose: Purpose, contextId: Option<string>,
    requestTx: Option<TransactionHash>, votingRound: Option<nat>, status: Status, failure: Option<Failure>,
    coreEventTx: Option<TransactionHash>)

  datatype Details = Details(
    requestTx: Option<TransactionHash>, coreEventTx: Option<TransactionHash>, failure: Option<Failure>,
    votingRound: Option<nat>)

  const NO_DETAILS: Details := Details(None, None, None, None)

  function Coalesce<T>(a: Option<T>, b: Option<T>): Option<T> { if a.Some? then a else b }

  /** The UPDATE statement of `transition`. */
  function Updated(r: Record, status: Status, d: Details): Record {
    r.(status := status, requestTx := Coalesce(d.requestTx, r.requestTx),
       votingRound := Coalesce(d.votingRound, r.votingRound),
       failure := d.failure, coreEventTx := Coalesce(d.coreEventTx, r.coreEventTx))
  }

  /** How the synchronous part of a store call ends: it throws, it already has its answer, or it has
      written and now waits for the file to be persisted. */
  datatype Attempt = Threw | Answered(record: Record) | Written

  datatype StoreState = StoreState(table: map<ProofId, Record>, closed: bool) {
    function Get(hash: ProofId): Option<Record> {
      if !closed && hash in table then Some(table[hash]) else None
    }

    function Transition(hash: ProofId, status: Status, allowed: set<Status>, d: Details): (StoreState, Attempt) {
      if closed || hash !in table then (this, Threw)
      else if table[hash].status == status then (this, Answered(table[hash]))
      else if table[hash].status !in allowed then (this, Threw)
      else (this.(table := table[hash := Updated(table[hash], status, d)]), Written)
    }

    function MarkSubmitted(hash: ProofId, tx: TransactionHash, round: nat): (StoreState, Attempt) {
      Transition(hash, Submitted, {ReadyToSubmit}, Details(Some(tx), None, None, Some(round)))
    }
    function MarkWaitingForFinalization(hash: ProofId): (StoreState, Attempt) {
      Transition(hash, WaitingFinalization, {Submitted}, NO_DETAILS)
    }
    function MarkFetchingProof(hash: ProofId): (StoreState, Attempt) {
      Transition(hash, FetchingProof, {WaitingFinalization}, NO_DETAILS)
    }
    function MarkProofReady(hash: ProofId): (StoreState, Attempt) {
      Transition(hash, ProofReady, {FetchingProof}, NO_DETAILS)
    }
    function MarkVerifiedFromCoreEvent(hash: ProofId, tx: TransactionHash): (StoreState, Attempt) {
      Transition(hash, Verified, {ProofReady}, NO_DETAILS.(coreEventTx := Some(tx)))
    }
    function MarkFailed(hash: ProofId, failure: Failure): (StoreState, Attempt) {
      Transition(hash, Failed, NON_TERMINAL, NO_DETAILS.(failure := Some(failure)))
    }
    function MarkExpired(hash: ProofId): (StoreState, Attempt) {
      Transition(hash, Expired, NON_TERMINAL, NO_DETAILS)
    }

    /** INSERT OR IGNORE: a row with the same id or the same hash keeps the new one out. */
    function CreateOrGetPrepared(r: Record): (StoreState, Attempt) {
      if closed then (this, Threw)
      else if r.requestBytesHash in table then (this, Answered(table[r.requestBytesHash]))
      else if exists k | k in table :: table[k].id == r.id then (this, Threw)
      else (this.(table := table[r.requestBytesHash := Prepared(r)]), Written)
    }
  }

  /** A freshly inserted row. */
  function Prepared(r: Record): Record {
    r.(requestTx := None, votingRound := None, status := ReadyToSubmit, failure := None, coreEventTx := None)
  }

  /** Left to itself the store would fail a record from every status that is not terminal. */
  lemma StoreFailsAnyNonTerminal(s: StoreState, hash: ProofId, failure: Failure)
    requires !s.closed && hash in s.table
    ensures s.MarkFailed(hash, failure).1 == Written <==> !Terminal(s.table[hash].status)
  {}

  class SqliteAttestationStore {
    var table: map<ProofId, Record>
    var closed: bool

    function State(): StoreState
      reads this
    {
      StoreState(table, closed)
    }

    constructor ()
      ensures State() == StoreState(map[], false)
    {
      table, closed := map[], false;
    }

    /** The synchronous part, up to `await this.persist()`. */
    method Transition(hash: ProofId, status: Status, allowed: set<Status>, d: Details) returns (a: Attempt)
      modifies this
      ensures (State(), a) == old(State().Transition(hash, status, allowed, d))
      ensures a.Written? <==>
        && !closed && hash in old(table)
        && old(table)[hash].status != status && old(table)[hash].status in allowed
      ensures a.Answered? <==> !closed && hash in old(table) && old(table)[hash].status == status
      ensures a.Answered? ==> a.record == old(table)[hash]
      ensures a.Written? ==>
        && hash in table && table == old(table)[hash := table[hash]]
        && var (r, r') := (old(table)[hash], table[hash]);
        && r' == r.(status := status, failure := d.failure, requestTx := r'.requestTx, votingRound := r'.votingRound,
                    coreEventTx := r'.coreEventTx)
        && r'.requestTx == (if d.requestTx.Some? then d.requestTx else r.requestTx)
        && r'.votingRound == (if d.votingRound.Some? then d.votingRound else r.votingRound)
        && r'.coreEventTx == (if d.coreEventTx.Some? then d.coreEventTx else r.coreEventTx)
    {
      if closed { return Threw; }
      if hash !in table { return Threw; }
      var record := table[hash];
      if record.status == status { return Answered(record); }
      if record.status !in allowed { return Threw; }
      table := table[hash := Updated(record, status, d)];
      return Written;
    }

    method MarkSubmitted(hash: ProofId, tx: TransactionHash, round: nat) returns (a: Attempt)
      modifies this
      ensures (State(), a) == old(State().MarkSubmitted(hash, tx, round))
      ensures a.Written? <==> !closed && hash in old(table) && old(table)[hash].status == ReadyToSubmit
      ensures a.Written? ==> table == old(table)[hash := old(table)[hash].(status := Submitted, requestTx := Some(tx),
                votingRound := Some(round), failure := None)]
      ensures !a.Written? ==> table == old(table)
    {
      a := Transition(hash, Submitted, {ReadyToSubmit}, Details(Some(tx), None, None, Some(round)));
    }

    method MarkWaitingForFinalization(hash: ProofId) returns (a: Attempt)
      modifies this
      ensures (State(), a) == old(State().MarkWaitingForFinalization(hash))
      ensures a.Written? <==> !closed && hash in old(table) && old(table)[hash].status == Submitted
      ensures a.Written? ==> table == old(table)[hash :=
        old(table)[hash].(status := WaitingFinalization, failure := None)]
      ensures !a.Written? ==> table == old(table)
    {
      a := Transition(hash, WaitingFinalization, {Submitted}, NO_DETAILS);
    }

    method MarkFetchingProof(hash: ProofId) returns (a: Attempt)
      modifies this
      ensures (State(), a) == old(State().MarkFetchingProof(hash))
      ensures a.Written? <==> !closed && hash in old(table) && old(table)[hash].status == WaitingFinalization
      ensures a.Written? ==> table == old(table)[hash := old(table)[hash].(status := FetchingProof, failure := None)]
      ensures !a.Written? ==> table == old(table)
    {
      a := Transition(hash, FetchingProof, {WaitingFinalization}, NO_DETAILS);
    }

    method MarkProofReady(hash: ProofId) returns (a: Attempt)
      modifies this
      ensures (State(), a) == old(State().MarkProofReady(hash))
      ensures a.Written? <==> !closed && hash in old(table) && old(table)[hash].status == FetchingProof
      ensures a.Written? ==> table == old(table)[hash := old(table)[hash].(status := ProofReady, failure := None)]
      ensures !a.Written? ==> table == old(table)
    {
      a := Transition(hash, ProofReady, {FetchingProof}, NO_DETAILS);
    }

    method MarkVerifiedFromCoreEvent(hash: ProofId, tx: TransactionHash) returns (a: Attempt)
      modifies this
      ensures (State(), a) == old(State().MarkVerifiedFromCoreEvent(hash, tx))
      ensures a.Written? <==> !closed && hash in old(table) && old(table)[hash].status == ProofReady
      ensures a.Written? ==> table == old(table)[hash := old(table)[hash].(status := Verified, coreEventTx := Some(tx),
                failure := None)]
      ensures !a.Written? ==> table == old(table)
    {
      a := Transition(hash, Verified, {ProofReady}, NO_DETAILS.(coreEventTx := Some(tx)));
    }

    method MarkFailed(hash: ProofId, failure: Failure) returns (a: Attempt)
      modifies this
      ensures (State(), a) == old(State().MarkFailed(hash, failure))
      ensures a.Written? <==> !closed && hash in old(table) && old(table)[hash].status in NON_TERMINAL
      ensures a.Written? ==> table == old(table)[hash := old(table)[hash].(status := Failed, failure := Some(failure))]
      ensures !a.Written? ==> table == old(table)
    {
      a := Transition(hash, Failed, NON_TERMINAL, NO_DETAILS.(failure := Some(failure)));
    }

    method MarkExpired(hash: ProofId) returns (a: Attempt)
      modifies this
      ensures (State(), a) == old(State().MarkExpired(hash))
      ensures a.Written? <==> !closed && hash in old(table) && old(table)[hash].status in NON_TERMINAL
      ensures a.Written? ==> table == old(table)[hash := old(table)[hash].(status := Expired, failure := None)]
      ensures !a.Written? ==> table == old(table)
    {
      a := Transition(hash, Expired, NON_TERMINAL, NO_DETAILS);
    }

    method CreateOrGetPrepared(r: Record) returns (a: Attempt)
      modifies this
      ensures (State(), a) == old(State().CreateOrGetPrepared(r))
      ensures a.Answered? <==> !closed && r.requestBytesHash in old(table)
      ensures a.Answered? ==> a.record == old(table)[r.requestBytesHash]
      ensures a.Written? <==>
        !closed && r.requestBytesHash !in old(table) && forall k | k in old(table) :: old(table)[k].id != r.id
      ensures a.Written? ==> table == old(table)[r.requestBytesHash := r.(status := ReadyToSubmit, requestTx := None,
                votingRound := None, failure := None, coreEventTx := None)]
    {
      if closed { return Threw; }
      if r.requestBytesHash !in table && !exists k | k in table :: table[k].id == r.id {
        table := table[r.requestBytesHash := Prepared(r)];
        return Written;
      }
      if r.requestBytesHash !in table { return Threw; }
      return Answered(table[r.requestBytesHash]);
    }

    /** The end of `close`, after its last persist. */
    method FinishClose()
      modifies this
      ensures State() == old(State()).(closed := true)
    {
      closed := true;
    }
  }
}
