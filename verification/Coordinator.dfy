/** xrp-payment-attestation-coordinator.ts, cut at every `await`: an in-flight call is a frame that holds
    its locals, and a segment runs one frame, without interruption, up to its next `await`. */
module Coordinator {
  import opened AttestationStore
  import opened VotingRound

  const COSTON2_CHAIN_ID: nat := 114

  datatype Metadata = Metadata(expiresAt: int, proofOwner: Address, requestBytes: Bytes, requiredFeeWei: int)

  function MetadataOf(r: Record): Option<Metadata> {
    if r.expiresAt.None? || r.proofOwner.None? || r.requestBytes.None? || r.requiredFeeWei.None? then None
    else Some(Metadata(r.expiresAt.value, r.proofOwner.value, r.requestBytes.value, r.requiredFeeWei.value))
  }

  datatype Receipt = Receipt(blockTimestamp: int, chainId: nat, paidFeeWei: int, requestBytes: Bytes, success: bool,
                             to: Address)

  predicate ReceiptValid(receipt: Receipt, hub: Address, m: Metadata) {
    && receipt.chainId == COSTON2_CHAIN_ID && receipt.success && receipt.to == hub
    && receipt.requestBytes == m.requestBytes && receipt.paidFeeWei == m.requiredFeeWei
  }

  datatype Outcome = Pending | CoreVerified | Rejected(failure: Failure)

  /** What a call does with the record once a store call has been awaited. */
  datatype Then =
    | ReturnIt
    | ThrowExpired
    | RefreshWaiting(m: Metadata)
    | RefreshFetching(m: Metadata)
    | RefreshReady(proof: Bytes)

  datatype Frame =
    // recordSubmitted
    | SubmitLoaded(hash: ProofId, tx: TransactionHash, record: Record)
    | AwaitReceipt(hash: ProofId, tx: TransactionHash, m: Metadata)
    | AwaitParameters(hash: ProofId, tx: TransactionHash, m: Metadata, receipt: Receipt)
    // refresh
    | RefreshLoaded(hash: ProofId, record: Record)
    | AwaitFinality(hash: ProofId, m: Metadata, record: Record, round: nat)
    | AwaitProof(hash: ProofId, m: Metadata, record: Record, round: nat)
    // confirmCoreSubmission
    | ConfirmLoaded(hash: ProofId, tx: TransactionHash, record: Record)
    | AwaitOutcome(hash: ProofId, tx: TransactionHash, record: Record)
    // inside a store call: waiting for the file, then for the caller to be resumed
    | Persisting(hash: ProofId, next: Then)
    | Resolved(hash: ProofId, record: Record, next: Then)
    // finished
    | Returned(hash: ProofId, record: Record)
    | ReturnedProof(hash: ProofId, proof: Bytes, record: Record)
    | Thrown

  /** What the awaited dependency, or the clock, answers. */
  datatype Reply =
    | Clock(now: int)
    | ReceiptRead(receipt: Receipt)
    | ParametersRead(first: int, duration: int)
    | Finality(finalized: bool)
    | ProofFetched(proof: Bytes)
    | OutcomeRead(outcome: Outcome)
    | Done
    | Failure

  function AfterMark(r: (StoreState, Attempt), hash: ProofId, next: Then): (StoreState, Frame) {
    match r.1
    case Threw => (r.0, Thrown)
    case Answered(record) => (r.0, Resolved(hash, record, next))
    case Written => (r.0, Persisting(hash, next))
  }

  /** `refresh` from its second `if` on. */
  function RefreshFromWaiting(s: StoreState, hash: ProofId, m: Metadata, record: Record): (StoreState, Frame) {
    if record.status.WaitingFinalization? then
      if record.votingRound.None? then (s, Thrown) else (s, AwaitFinality(hash, m, record, record.votingRound.value))
    else RefreshFromFetching(s, hash, m, record)
  }

  /** `refresh` from its third `if` on. */
  function RefreshFromFetching(s: StoreState, hash: ProofId, m: Metadata, record: Record): (StoreState, Frame) {
    if !record.status.FetchingProof? && !record.status.ProofReady? then (s, Thrown)
    else if record.votingRound.None? then (s, Thrown)
    else (s, AwaitProof(hash, m, record, record.votingRound.value))
  }

  function Resume(hub: Address, s: StoreState, f: Frame, r: Reply): (StoreState, Frame) {
    match f
    case SubmitLoaded(hash, tx, record) =>
      if !r.Clock? then (s, f)
      else if MetadataOf(record).None? then (s, Thrown)
      else if MetadataOf(record).value.expiresAt <= r.now then AfterMark(s.MarkExpired(hash), hash, ThrowExpired)
      else (s, AwaitReceipt(hash, tx, MetadataOf(record).value))
    case AwaitReceipt(hash, tx, m) =>
      if r.ReceiptRead? then
        (s, if ReceiptValid(r.receipt, hub, m) then AwaitParameters(hash, tx, m, r.receipt) else Thrown)
      else if r.Failure? then (s, Thrown) else (s, f)
    case AwaitParameters(hash, tx, m, receipt) =>
      if r.ParametersRead? then
        match VotingRoundForRequestBlock(receipt.blockTimestamp, r.first, r.duration)
        case Invalid => (s, Thrown)
        case Round(round) => AfterMark(s.MarkSubmitted(hash, tx, round), hash, ReturnIt)
      else if r.Failure? then (s, Thrown) else (s, f)
    case RefreshLoaded(hash, record) =>
      if !r.Clock? then (s, f)
      else if MetadataOf(record).None? then (s, Thrown)
      else
        var m := MetadataOf(record).value;
        if m.expiresAt <= r.now then AfterMark(s.MarkExpired(hash), hash, ThrowExpired)
        else if record.status.Submitted? then AfterMark(s.MarkWaitingForFinalization(hash), hash, RefreshWaiting(m))
        else RefreshFromWaiting(s, hash, m, record)
    case AwaitFinality(hash, m, record, round) =>
      if r.Finality? then
        if r.finalized then AfterMark(s.MarkFetchingProof(hash), hash, RefreshFetching(m)) else (s, Thrown)
      else if r.Failure? then (s, Thrown) else (s, f)
    case AwaitProof(hash, m, record, round) =>
      if r.ProofFetched? then
        if record.status.FetchingProof? then AfterMark(s.MarkProofReady(hash), hash, RefreshReady(r.proof))
        else (s, ReturnedProof(hash, r.proof, record))
      else if r.Failure? then (s, Thrown) else (s, f)
    case ConfirmLoaded(hash, tx, record) =>
      (s, if record.status.ProofReady? then AwaitOutcome(hash, tx, record) else Thrown)
    case AwaitOutcome(hash, tx, record) =>
      if r.OutcomeRead? then
        match r.outcome
        case Pending => (s, Returned(hash, record))
        case Rejected(failure) => AfterMark(s.MarkFailed(hash, failure), hash, ReturnIt)
        case CoreVerified => AfterMark(s.MarkVerifiedFromCoreEvent(hash, tx), hash, ReturnIt)
      else if r.Failure? then (s, Thrown) else (s, f)
    case Persisting(hash, next) =>
      if r.Done? then (s, if s.Get(hash).Some? then Resolved(hash, s.Get(hash).value, next) else Thrown)
      else if r.Failure? then (s, Thrown) else (s, f)
    case Resolved(hash, record, next) =>
      match next {
        case ReturnIt => (s, Returned(hash, record))
        case ThrowExpired => (s, Thrown)
        case RefreshWaiting(m) => RefreshFromWaiting(s, hash, m, record)
        case RefreshFetching(m) => RefreshFromFetching(s, hash, m, record)
        case RefreshReady(proof) => (s, ReturnedProof(hash, proof, record))
      }
    case _ => (s, f)
  }

  // ---- The system of all in-flight calls ----------------------------------------

  /** A dependency's answer, remembered with the question it answered. */
  datatype Observation =
    | SawClock(now: int)
    | SawReceipt(tx: TransactionHash, receipt: Receipt)
    | SawParameters(hash: ProofId, tx: TransactionHash, receipt: Receipt, first: int, duration: int)
    | SawFinalized(round: nat)
    | SawProof(requestBytes: Bytes, round: nat, proof: Bytes)
    | SawOutcome(accountId: AccountId, externalTx: TransactionHash, coreTx: TransactionHash, outcome: Outcome)

  function Noted(f: Frame, r: Reply): set<Observation> {
    if r.Clock? then {SawClock(r.now)}
    else if f.AwaitReceipt? && r.ReceiptRead? then {SawReceipt(f.tx, r.receipt)}
    else if f.AwaitParameters? && r.ParametersRead? then {SawParameters(f.hash, f.tx, f.receipt, r.first, r.duration)}
    else if f.AwaitFinality? && r.Finality? && r.finalized then {SawFinalized(f.round)}
    else if f.AwaitProof? && r.ProofFetched? then {SawProof(f.m.requestBytes, f.round, r.proof)}
    else if f.AwaitOutcome? && r.OutcomeRead? then {SawOutcome(f.record.accountId, f.record.txHash, f.tx, r.outcome)}
    else {}
  }

  /** `seen` is a history variable. */
  datatype System = System(hub: Address, store: StoreState, frames: map<nat, Frame>, seen: set<Observation>)

  /** What `prepare` has gathered when it reaches the store. */
  datatype PrepareInput = PrepareInput(
    accountId: AccountId, txHash: TransactionHash, sourceIsTestXrp: bool, m: Metadata, purpose: Purpose,
    contextId: Option<string>)

  function NewRecord(i: PrepareInput): Record {
    var hash := Keccak(i.m.requestBytes);
    Record(hash, i.accountId, i.txHash, hash, Some(i.m.requestBytes), Some(i.m.proofOwner), Some(i.m.requiredFeeWei),
           Some(i.m.expiresAt), i.purpose, i.contextId, None, None, ReadyToSubmit, None, None)
  }

  datatype Action =
    | Prepare(call: nat, input: PrepareInput)
    | RecordSubmitted(call: nat, hash: ProofId, tx: TransactionHash)
    | Refresh(call: nat, hash: ProofId)
    | ConfirmCoreSubmission(call: nat, hash: ProofId, tx: TransactionHash)
    | Continue(call: nat, reply: Reply)
    | Close

  function Start(s: System, call: nat, f: Frame): System {
    if call in s.frames then s else s.(frames := s.frames[call := f])
  }

  function Act(s: System, a: Action): System {
    match a
    case Prepare(call, input) =>
      if call in s.frames then s
      else if !input.sourceIsTestXrp || input.m.requiredFeeWei < 0 then s.(frames := s.frames[call := Thrown])
      else
        var (store, f) := AfterMark(s.store.CreateOrGetPrepared(NewRecord(input)), Keccak(input.m.requestBytes),
                                    ReturnIt);
        s.(store := store, frames := s.frames[call := f])
    case RecordSubmitted(call, hash, tx) =>
      Start(s, call, if s.store.Get(hash).Some? then SubmitLoaded(hash, tx, s.store.Get(hash).value) else Thrown)
    case Refresh(call, hash) =>
      Start(s, call, if s.store.Get(hash).Some? then RefreshLoaded(hash, s.store.Get(hash).value) else Thrown)
    case ConfirmCoreSubmission(call, hash, tx) =>
      Start(s, call, if s.store.Get(hash).Some? then ConfirmLoaded(hash, tx, s.store.Get(hash).value) else Thrown)
    case Continue(call, reply) =>
      if call !in s.frames then s
      else
        var (store, f) := Resume(s.hub, s.store, s.frames[call], reply);
        s.(store := store, frames := s.frames[call := f], seen := s.seen + Noted(s.frames[call], reply))
    case Close => s.(store := s.store.(closed := true))
  }

  function Run(s: System, actions: seq<Action>): System {
    if actions == [] then s else Act(Run(s, actions[..|actions| - 1]), actions[|actions| - 1])
  }

  function Fresh(hub: Address): System { System(hub, StoreState(map[], false), map[], {}) }

  // ---- The coordinator object ---------------------------------------------------

  class XrpPaymentAttestationCoordinator {
    const hub: Address
    const store: SqliteAttestationStore

    constructor (hub: Address, store: SqliteAttestationStore)
      ensures this.hub == hub && this.store == store
    {
      this.hub, this.store := hub, store;
    }

    /** Awaiting a store call: the frame that is left behind. */
    function Awaiting(a: Attempt, hash: ProofId, next: Then): Frame {
      match a
      case Threw => Thrown
      case Answered(record) => Resolved(hash, record, next)
      case Written => Persisting(hash, next)
    }

    /** `recordSubmitted`, resumed by the clock, the receipt or the voting round parameters. */
    method ContinueRecordSubmitted(f: Frame, r: Reply) returns (next: Frame)
      requires f.SubmitLoaded? || f.AwaitReceipt? || f.AwaitParameters?
      modifies store
      ensures (store.State(), next) == old(Resume(hub, store.State(), f, r))
    {
      next := f;
      match f
      case SubmitLoaded(hash, tx, record) =>
        if r.Clock? {
          var metadata := MetadataOf(record);
          if metadata.None? { return Thrown; }
          if metadata.value.expiresAt <= r.now {
            var a := store.MarkExpired(hash);
            return Awaiting(a, hash, ThrowExpired);
          }
          return AwaitReceipt(hash, tx, metadata.value);
        }
      case AwaitReceipt(hash, tx, metadata) =>
        if r.Failure? { return Thrown; }
        if r.ReceiptRead? {
          var receipt := r.receipt;
          if receipt.chainId != COSTON2_CHAIN_ID { return Thrown; }
          if !receipt.success { return Thrown; }
          if receipt.to != hub { return Thrown; }
          if receipt.requestBytes != metadata.requestBytes { return Thrown; }
          if receipt.paidFeeWei != metadata.requiredFeeWei { return Thrown; }
          return AwaitParameters(hash, tx, metadata, receipt);
        }
      case AwaitParameters(hash, tx, metadata, receipt) =>
        if r.Failure? { return Thrown; }
        if r.ParametersRead? {
          var round := VotingRoundForRequestBlock(receipt.blockTimestamp, r.first, r.duration);
          if round.Invalid? { return Thrown; }
          var a := store.MarkSubmitted(hash, tx, round.id);
          return Awaiting(a, hash, ReturnIt);
        }
    }

    /** `refresh`, resumed by the clock, the relay, the DA layer or one of its own store calls; `record` is
        reassigned on the way. */
    method ContinueRefresh(f: Frame, r: Reply) returns (next: Frame)
      requires f.RefreshLoaded? || f.AwaitFinality? || f.AwaitProof?
        || (f.Resolved? && (f.next.RefreshWaiting? || f.next.RefreshFetching? || f.next.RefreshReady?))
      modifies store
      ensures (store.State(), next) == old(Resume(hub, store.State(), f, r))
    {
      if f.AwaitFinality? {
        if r.Failure? || (r.Finality? && !r.finalized) { return Thrown; }
        if !r.Finality? { return f; }
        var a := store.MarkFetchingProof(f.hash);
        return Awaiting(a, f.hash, RefreshFetching(f.m));
      }
      if f.AwaitProof? {
        if r.Failure? { return Thrown; }
        if !r.ProofFetched? { return f; }
        if f.record.status.FetchingProof? {
          var a := store.MarkProofReady(f.hash);
          return Awaiting(a, f.hash, RefreshReady(r.proof));
        }
        return ReturnedProof(f.hash, r.proof, f.record);
      }
      var record := f.record;
      if f.Resolved? && f.next.RefreshReady? { return ReturnedProof(f.hash, f.next.proof, record); }
      var metadata := if f.Resolved? then Some(f.next.m) else MetadataOf(record);
      if f.RefreshLoaded? {
        if !r.Clock? { return f; }
        if metadata.None? { return Thrown; }
        if metadata.value.expiresAt <= r.now {
          var a := store.MarkExpired(f.hash);
          return Awaiting(a, f.hash, ThrowExpired);
        }
        if record.status.Submitted? {
          var a := store.MarkWaitingForFinalization(f.hash);
          return Awaiting(a, f.hash, RefreshWaiting(metadata.value));
        }
      }
      if record.status.WaitingFinalization? && !(f.Resolved? && f.next.RefreshFetching?) {
        if record.votingRound.None? { return Thrown; }
        return AwaitFinality(f.hash, metadata.value, record, record.votingRound.value);
      }
      if !record.status.FetchingProof? && !record.status.ProofReady? { return Thrown; }
      if record.votingRound.None? { return Thrown; }
      return AwaitProof(f.hash, metadata.value, record, record.votingRound.value);
    }

    method ContinueConfirm(f: Frame, r: Reply) returns (next: Frame)
      requires f.ConfirmLoaded? || f.AwaitOutcome?
      modifies store
      ensures (store.State(), next) == old(Resume(hub, store.State(), f, r))
    {
      if f.ConfirmLoaded? {
        if !f.record.status.ProofReady? { return Thrown; }
        return AwaitOutcome(f.hash, f.tx, f.record);
      }
      if r.Failure? { return Thrown; }
      if !r.OutcomeRead? { return f; }
      if r.outcome.Pending? { return Returned(f.hash, f.record); }
      if r.outcome.Rejected? {
        var a := store.MarkFailed(f.hash, r.outcome.failure);
        return Awaiting(a, f.hash, ReturnIt);
      }
      var a := store.MarkVerifiedFromCoreEvent(f.hash, f.tx);
      return Awaiting(a, f.hash, ReturnIt);
    }

    /** The end of a store call: the record is read again, and the caller is resumed with what was read. */
    method ContinueStoreCall(f: Frame, r: Reply) returns (next: Frame)
      requires f.Persisting? || f.Resolved?
      modifies store
      ensures (store.State(), next) == old(Resume(hub, store.State(), f, r))
    {
      if f.Persisting? {
        if r.Failure? { return Thrown; }
        if !r.Done? { return f; }
        if store.closed || f.hash !in store.table { return Thrown; }
        return Resolved(f.hash, store.table[f.hash], f.next);
      }
      match f.next {
        case ReturnIt => return Returned(f.hash, f.record);
        case ThrowExpired => return Thrown;
        case _ => next := ContinueRefresh(f, r);
      }
    }

    method Continue(f: Frame, r: Reply) returns (next: Frame)
      modifies store
      ensures (store.State(), next) == old(Resume(hub, store.State(), f, r))
    {
      match f
      case SubmitLoaded(_, _, _) => next := ContinueRecordSubmitted(f, r);
      case AwaitReceipt(_, _, _) => next := ContinueRecordSubmitted(f, r);
      case AwaitParameters(_, _, _, _) => next := ContinueRecordSubmitted(f, r);
      case RefreshLoaded(_, _) => next := ContinueRefresh(f, r);
      case AwaitFinality(_, _, _, _) => next := ContinueRefresh(f, r);
      case AwaitProof(_, _, _, _) => next := ContinueRefresh(f, r);
      case ConfirmLoaded(_, _, _) => next := ContinueConfirm(f, r);
      case AwaitOutcome(_, _, _) => next := ContinueConfirm(f, r);
      case Persisting(_, _) => next := ContinueStoreCall(f, r);
      case Resolved(_, _, _) => next := ContinueStoreCall(f, r);
      case _ => next := f;
    }
  }

  /** The event loop: the calls in flight over one coordinator. */
  class EventLoop {
    const coordinator: XrpPaymentAttestationCoordinator
    var frames: map<nat, Frame>
    ghost var seen: set<Observation>

    ghost function State(): System
      reads this, coordinator.store
    {
      System(coordinator.hub, coordinator.store.State(), frames, seen)
    }

    constructor (coordinator: XrpPaymentAttestationCoordinator)
      requires coordinator.store.State() == StoreState(map[], false)
      ensures this.coordinator == coordinator && State() == Fresh(coordinator.hub)
    {
      this.coordinator := coordinator;
      frames, seen := map[], {};
    }

    function Load(hash: ProofId): Option<Record>
      reads coordinator.store
    {
      var store := coordinator.store;
      if store.closed || hash !in store.table then None else Some(store.table[hash])
    }

    /** One step of the loop: a call arrives, or the frame of one call runs to its next `await`. */
    method Perform(a: Action)
      modifies this, coordinator.store
      ensures State() == Act(old(State()), a)
    {
      match a
      case Prepare(call, input) =>
        if call !in frames {
          if !input.sourceIsTestXrp || input.m.requiredFeeWei < 0 {
            frames := frames[call := Thrown];
          } else {
            var attempt := coordinator.store.CreateOrGetPrepared(NewRecord(input));
            frames := frames[call := coordinator.Awaiting(attempt, Keccak(input.m.requestBytes), ReturnIt)];
          }
        }
      case RecordSubmitted(call, hash, tx) =>
        var record := Load(hash);
        if call !in frames {
          frames := frames[call := if record.Some? then SubmitLoaded(hash, tx, record.value) else Thrown];
        }
      case Refresh(call, hash) =>
        var record := Load(hash);
        if call !in frames {
          frames := frames[call := if record.Some? then RefreshLoaded(hash, record.value) else Thrown];
        }
      case ConfirmCoreSubmission(call, hash, tx) =>
        var record := Load(hash);
        if call !in frames {
          frames := frames[call := if record.Some? then ConfirmLoaded(hash, tx, record.value) else Thrown];
        }
      case Continue(call, reply) =>
        if call in frames {
          seen := seen + Noted(frames[call], reply);
          var next := coordinator.Continue(frames[call], reply);
          frames := frames[call := next];
        }
      case Close => coordinator.store.FinishClose();
    }
  }
}
