/** What one call does from start to end when no other call comes between its awaits: every case of the record
    it finds and of the answers it gets. */
module CoordinatorCalls {
  import opened AttestationStore
  import opened VotingRound
  import opened Coordinator
  import opened CoordinatorSafety

  // ---- One call alone -----------------------------------------------------------

  function Then(hub: Address, p: (StoreState, Frame), r: Reply): (StoreState, Frame) { Resume(hub, p.0, p.1, r) }

  /** One frame, answered by `replies` in this order while nothing else runs. */
  function Drive(hub: Address, p: (StoreState, Frame), replies: seq<Reply>): (StoreState, Frame) {
    if replies == [] then p else Then(hub, Drive(hub, p, replies[..|replies| - 1]), replies[|replies| - 1])
  }

  function Continues(call: nat, replies: seq<Reply>): seq<Action> {
    seq(|replies|, i requires 0 <= i < |replies| => Continue(call, replies[i]))
  }

  /** The call `arrival` arrives, and is then answered by `replies`. */
  function Alone(s: System, arrival: Action, call: nat, replies: seq<Reply>): System {
    Run(s, [arrival] + Continues(call, replies))
  }

  /** From `s` to `t` one call has come and gone. */
  ghost predicate OnlyCall(s: System, t: System, call: nat) {
    && t.hub == s.hub && t.store.closed == s.store.closed
    && call in t.frames && t.frames == s.frames[call := t.frames[call]]
  }

  lemma {:induction false} DriveIsRun(s: System, arrival: Action, call: nat, replies: seq<Reply>)
    requires call in Act(s, arrival).frames
    ensures var (s1, t) := (Act(s, arrival), Alone(s, arrival, call, replies));
      var p := Drive(s1.hub, (s1.store, s1.frames[call]), replies);
      t == s1.(store := p.0, frames := s1.frames[call := p.1], seen := t.seen)
  {
    var actions := [arrival] + Continues(call, replies);
    if replies == [] {
      assert actions[..|actions| - 1] == [] && actions[|actions| - 1] == arrival;
      assert Run(s, []) == s;
    } else {
      DriveIsRun(s, arrival, call, replies[..|replies| - 1]);
      assert actions[..|actions| - 1] == [arrival] + Continues(call, replies[..|replies| - 1]);
      assert actions[|actions| - 1] == Continue(call, replies[|replies| - 1]);
    }
  }

  /** A call that starts with frame `f` and is then left alone ends as `Drive` says. */
  lemma AloneEnds(s: System, arrival: Action, call: nat, store: StoreState, f: Frame, replies: seq<Reply>)
    requires Act(s, arrival) == s.(store := store, frames := s.frames[call := f])
    ensures var (t, p) := (Alone(s, arrival, call, replies), Drive(s.hub, (store, f), replies));
      && t.hub == s.hub && call in t.frames && (t.store, t.frames[call]) == p
      && t.frames == s.frames[call := t.frames[call]]
  {
    DriveIsRun(s, arrival, call, replies);
  }

  lemma DriveSnoc(hub: Address, p: (StoreState, Frame), replies: seq<Reply>, r: Reply)
    ensures Drive(hub, p, replies + [r]) == Then(hub, Drive(hub, p, replies), r)
  {
    assert (replies + [r])[..|replies|] == replies;
  }

  lemma Drive2(hub: Address, p: (StoreState, Frame), a: Reply, b: Reply)
    ensures Drive(hub, p, [a, b]) == Then(hub, Then(hub, p, a), b)
  {
    DriveSnoc(hub, p, [], a);
    DriveSnoc(hub, p, [a], b);
    assert [] + [a] == [a] && [a] + [b] == [a, b];
  }

  lemma DriveAppend(hub: Address, p: (StoreState, Frame), rs: seq<Reply>, a: Reply, b: Reply)
    ensures Drive(hub, p, rs + [a, b]) == Then(hub, Then(hub, Drive(hub, p, rs), a), b)
  {
    DriveSnoc(hub, p, rs, a);
    DriveSnoc(hub, p, rs + [a], b);
    assert rs + [a] + [b] == rs + [a, b];
  }

  /** A finished call is deaf to every further answer. */
  lemma {:induction false} FinishedStays(hub: Address, p: (StoreState, Frame), replies: seq<Reply>)
    requires p.1.Thrown? || p.1.Returned? || p.1.ReturnedProof?
    ensures Drive(hub, p, replies) == p
  {
    if replies != [] { FinishedStays(hub, p, replies[..|replies| - 1]); }
  }

  // ---- Store calls --------------------------------------------------------------

  /** `hash` as an expiry leaves it: EXPIRED unless it had already ended. */
  function ExpiredIn(table: map<ProofId, Record>, hash: ProofId): map<ProofId, Record>
    requires hash in table
  {
    if table[hash].status in {Verified, Failed, Expired} then table
    else table[hash := table[hash].(status := Expired, failure := None)]
  }

  /** Two answers bring a store call to its end: the file is written, and the caller is resumed. */
  lemma StoreCallEnds(hub: Address, s: StoreState, hash: ProofId, to: Status, allowed: set<Status>, d: Details,
                      next: Then)
    requires !s.closed && hash in s.table && (next.ReturnIt? || next.ThrowExpired?)
    ensures var p := Then(hub, Then(hub, AfterMark(s.Transition(hash, to, allowed, d), hash, next), Done), Done);
      var r := s.table[hash];
      var (moved, kept) := (r.status != to && r.status in allowed, r.status == to);
      && p.0 == (if moved then s.(table := s.table[hash := Updated(r, to, d)]) else s)
      && p.1 == (if (moved || kept) && next.ReturnIt? then Returned(hash, p.0.table[hash]) else Thrown)
  {}

  // ---- recordSubmitted ----------------------------------------------------------

  /** The record is marked EXPIRED; the answers in between are to nobody. */
  lemma ExpiryEnds(hub: Address, s: StoreState, hash: ProofId, x: Reply, y: Reply)
    requires !s.closed && hash in s.table && x.ReceiptRead? && y.ParametersRead?
    ensures var p := Then(hub, Then(hub, AfterMark(s.MarkExpired(hash), hash, ThrowExpired), x), y);
      Then(hub, Then(hub, p, Done), Done) == (s.(table := ExpiredIn(s.table, hash)), Thrown)
  {
    StoreCallEnds(hub, s, hash, Expired, NON_TERMINAL, NO_DETAILS, ThrowExpired);
  }

  /** The receipt is of a successful transaction to the hub on chain 114 that pays exactly for this request. */
  predicate PaysFor(receipt: Receipt, hub: Address, r: Record) {
    && receipt.chainId == 114 && receipt.success && receipt.to == hub
    && r.requestBytes == Some(receipt.requestBytes) && r.requiredFeeWei == Some(receipt.paidFeeWei)
  }

  /** What `recordSubmitted` leaves of record `r` and how it ends, when the clock shows `now`. */
  ghost predicate SubmissionOutcome(hub: Address, table: map<ProofId, Record>, hash: ProofId, tx: TransactionHash,
                                    now: int, receipt: Receipt, first: int, duration: int,
                                    table': map<ProofId, Record>, end: Frame)
    requires hash in table && table[hash].expiresAt.Some?
  {
    var r := table[hash];
    if r.expiresAt.value <= now then table' == ExpiredIn(table, hash) && end == Thrown
    else if !PaysFor(receipt, hub, r) || duration <= 0 || receipt.blockTimestamp < first then
      table' == table && end == Thrown
    else if r.status.ReadyToSubmit? then
      exists round: nat ::
        && InRound(receipt.blockTimestamp, first, duration, round)
        && table' == table[hash := r.(status := Submitted, requestTx := Some(tx), votingRound := Some(round),
                                      failure := None)]
        && end == Returned(hash, table'[hash])
    else if r.status.Submitted? then table' == table && end == Returned(hash, r)
    else table' == table && end == Thrown
  }

  lemma SubmissionDriven(hub: Address, s: StoreState, hash: ProofId, tx: TransactionHash, now: int, receipt: Receipt,
                         first: int, duration: int)
    requires !s.closed && hash in s.table && MetadataOf(s.table[hash]).Some?
    ensures var p := Drive(hub, (s, SubmitLoaded(hash, tx, s.table[hash])),
                           [Clock(now), ReceiptRead(receipt), ParametersRead(first, duration)] + [Done, Done]);
      !p.0.closed
      && SubmissionOutcome(hub, s.table, hash, tx, now, receipt, first, duration, p.0.table, p.1)
  {
    var p0 := (s, SubmitLoaded(hash, tx, s.table[hash]));
    var (x, y) := (ReceiptRead(receipt), ParametersRead(first, duration));
    DriveAppend(hub, p0, [Clock(now), x, y], Done, Done);
    DriveSnoc(hub, p0, [Clock(now), x], y);
    Drive2(hub, p0, Clock(now), x);
    assert [Clock(now), x] + [y] == [Clock(now), x, y];
    if s.table[hash].expiresAt.value <= now {
      ExpiryEnds(hub, s, hash, x, y);
    } else if PaysFor(receipt, hub, s.table[hash]) && duration > 0 && receipt.blockTimestamp >= first {
      var round := VotingRoundForRequestBlock(receipt.blockTimestamp, first, duration).id;
      RoundContainsBlock(receipt.blockTimestamp, first, duration, round);
      StoreCallEnds(hub, s, hash, Submitted, {ReadyToSubmit}, Details(Some(tx), None, None, Some(round)), ReturnIt);
    }
  }

  /** A record an undisturbed `recordSubmitted` finds is SUBMITTED afterwards, with this transaction and the round of
      the block, exactly when it was READY_TO_SUBMIT, has not expired and the receipt pays for it. */
  lemma RecordSubmittedAlone(hub: Address, actions: seq<Action>, call: nat, hash: ProofId, tx: TransactionHash,
                             now: int, receipt: Receipt, first: int, duration: int)
    requires var s := Run(Fresh(hub), actions); call !in s.frames && !s.store.closed && hash in s.store.table
    ensures var s := Run(Fresh(hub), actions);
      var t := Alone(s, RecordSubmitted(call, hash, tx), call,
                     [Clock(now), ReceiptRead(receipt), ParametersRead(first, duration)] + [Done, Done]);
      && OnlyCall(s, t, call) && s.store.table[hash].expiresAt.Some?
      && SubmissionOutcome(hub, s.store.table, hash, tx, now, receipt, first, duration, t.store.table, t.frames[call])
  {
    RunSafe(hub, actions);
    var s := Run(Fresh(hub), actions);
    AloneEnds(s, RecordSubmitted(call, hash, tx), call, s.store, SubmitLoaded(hash, tx, s.store.table[hash]),
              [Clock(now), ReceiptRead(receipt), ParametersRead(first, duration)] + [Done, Done]);
    SubmissionDriven(hub, s.store, hash, tx, now, receipt, first, duration);
  }

  // ---- confirmCoreSubmission ----------------------------------------------------

  ghost predicate ConfirmationOutcome(table: map<ProofId, Record>, hash: ProofId, tx: TransactionHash,
                                      outcome: Outcome, table': map<ProofId, Record>, end: Frame)
    requires hash in table
  {
    var r := table[hash];
    if !r.status.ProofReady? then table' == table && end == Thrown
    else
      && hash in table' && end == Returned(hash, table'[hash])
      && match outcome
         case Pending => table' == table
         case Rejected(failure) => table' == table[hash := r.(status := Failed, failure := Some(failure))]
         case CoreVerified =>
           table' == table[hash := r.(status := Verified, coreEventTx := Some(tx), failure := None)]
  }

  lemma ConfirmationDriven(hub: Address, s: StoreState, hash: ProofId, tx: TransactionHash, outcome: Outcome)
    requires !s.closed && hash in s.table
    ensures var p := Drive(hub, (s, ConfirmLoaded(hash, tx, s.table[hash])),
                           [Done, OutcomeRead(outcome)] + [Done, Done]);
      !p.0.closed && ConfirmationOutcome(s.table, hash, tx, outcome, p.0.table, p.1)
  {
    var p0 := (s, ConfirmLoaded(hash, tx, s.table[hash]));
    DriveAppend(hub, p0, [Done, OutcomeRead(outcome)], Done, Done);
    Drive2(hub, p0, Done, OutcomeRead(outcome));
    if s.table[hash].status.ProofReady? {
      match outcome
      case Pending => {}
      case Rejected(failure) =>
        StoreCallEnds(hub, s, hash, Failed, NON_TERMINAL, NO_DETAILS.(failure := Some(failure)), ReturnIt);
      case CoreVerified =>
        StoreCallEnds(hub, s, hash, Verified, {ProofReady}, NO_DETAILS.(coreEventTx := Some(tx)), ReturnIt);
    }
  }

  /** An undisturbed `confirmCoreSubmission` moves a PROOF_READY record, and no other, to what the Core reader says. */
  lemma ConfirmAlone(hub: Address, actions: seq<Action>, call: nat, hash: ProofId, tx: TransactionHash,
                     outcome: Outcome)
    requires var s := Run(Fresh(hub), actions); call !in s.frames && !s.store.closed && hash in s.store.table
    ensures var s := Run(Fresh(hub), actions);
      var t := Alone(s, ConfirmCoreSubmission(call, hash, tx), call, [Done, OutcomeRead(outcome)] + [Done, Done]);
      && OnlyCall(s, t, call)
      && ConfirmationOutcome(s.store.table, hash, tx, outcome, t.store.table, t.frames[call])
  {
    RunSafe(hub, actions);
    var s := Run(Fresh(hub), actions);
    AloneEnds(s, ConfirmCoreSubmission(call, hash, tx), call, s.store, ConfirmLoaded(hash, tx, s.store.table[hash]),
              [Done, OutcomeRead(outcome)] + [Done, Done]);
    ConfirmationDriven(hub, s.store, hash, tx, outcome);
  }

  // ---- refresh ------------------------------------------------------------------

  /** `r` once it has come to PROOF_READY. */
  function AtProofReady(r: Record): Record {
    if r.status.ProofReady? then r else r.(status := ProofReady, failure := None)
  }

  ghost predicate RefreshOutcome(table: map<ProofId, Record>, hash: ProofId, now: int, finalized: bool, proof: Bytes,
                                 table': map<ProofId, Record>, end: Frame)
    requires hash in table && table[hash].expiresAt.Some?
  {
    var r := table[hash];
    if r.expiresAt.value <= now then table' == ExpiredIn(table, hash) && end == Thrown
    else match r.status
    case Submitted =>
      if finalized then table' == table[hash := AtProofReady(r)] && end == ReturnedProof(hash, proof, AtProofReady(r))
      else table' == table[hash := r.(status := WaitingFinalization, failure := None)] && end == Thrown
    case WaitingFinalization =>
      if finalized then table' == table[hash := AtProofReady(r)] && end == ReturnedProof(hash, proof, AtProofReady(r))
      else table' == table && end == Thrown
    case FetchingProof => table' == table[hash := AtProofReady(r)] && end == ReturnedProof(hash, proof, AtProofReady(r))
    case ProofReady => table' == table && end == ReturnedProof(hash, proof, r)
    case _ => table' == table && end == Thrown
  }

  /** A store transition that is resumed into the next wait of `refresh`, here written out for each of the three. */
  function Moved(s: StoreState, hash: ProofId, to: Status): StoreState
    requires hash in s.table
  {
    s.(table := s.table[hash := s.table[hash].(status := to, failure := None)])
  }

  /** The last stretch: the proof is fetched and the record marked. */
  lemma FetchStretch(hub: Address, s: StoreState, hash: ProofId, m: Metadata, record: Record, round: nat, proof: Bytes)
    requires !s.closed && hash in s.table && s.table[hash] == record
    requires record.status.FetchingProof? || record.status.ProofReady?
    ensures var p := Then(hub, Then(hub, Then(hub, (s, AwaitProof(hash, m, record, round)), ProofFetched(proof)), Done),
                          Done);
      && p.0 == s.(table := s.table[hash := AtProofReady(record)])
      && p.1 == ReturnedProof(hash, proof, AtProofReady(record))
  {
    assert record.status.ProofReady? ==> s.table[hash := record] == s.table;
  }

  /** The stretch before: finality is asked for, and only then is the record marked. */
  lemma FinalityStretch(hub: Address, s: StoreState, hash: ProofId, m: Metadata, record: Record, round: nat,
                        finalized: bool)
    requires !s.closed && hash in s.table && s.table[hash] == record
    requires record.status.WaitingFinalization? && record.votingRound == Some(round)
    ensures var p := Then(hub, Then(hub, Then(hub, (s, AwaitFinality(hash, m, record, round)), Finality(finalized)),
                                    Done), Done);
      var s' := Moved(s, hash, FetchingProof);
      p == if finalized then (s', AwaitProof(hash, m, s'.table[hash], round)) else (s, Thrown)
  {}

  lemma WaitingStretch(hub: Address, s: StoreState, hash: ProofId, record: Record, now: int)
    requires !s.closed && hash in s.table && s.table[hash] == record
    requires record.status.Submitted? && record.votingRound.Some?
    requires MetadataOf(record).Some? && MetadataOf(record).value.expiresAt > now
    ensures var p := Then(hub, Then(hub, Then(hub, (s, RefreshLoaded(hash, record)), Clock(now)), Done), Done);
      var s' := Moved(s, hash, WaitingFinalization);
      p == (s', AwaitFinality(hash, MetadataOf(record).value, s'.table[hash], record.votingRound.value))
  {}

  function RefreshReplies(now: int, finalized: bool, proof: Bytes): seq<Reply> {
    [Clock(now)] + [Done, Done] + [Finality(finalized)] + [Done, Done] + [ProofFetched(proof)] + [Done, Done]
  }

  function Then3(hub: Address, p: (StoreState, Frame), a: Reply): (StoreState, Frame) {
    Then(hub, Then(hub, Then(hub, p, a), Done), Done)
  }

  lemma RefreshInThree(hub: Address, p: (StoreState, Frame), now: int, finalized: bool, proof: Bytes)
    ensures Drive(hub, p, RefreshReplies(now, finalized, proof))
      == Then3(hub, Then3(hub, Then3(hub, p, Clock(now)), Finality(finalized)), ProofFetched(proof))
  {
    var one := [Clock(now)] + [Done, Done];
    var two := one + [Finality(finalized)] + [Done, Done];
    DriveSnoc(hub, p, [], Clock(now));
    assert [] + [Clock(now)] == [Clock(now)];
    DriveAppend(hub, p, [Clock(now)], Done, Done);
    DriveSnoc(hub, p, one, Finality(finalized));
    DriveAppend(hub, p, one + [Finality(finalized)], Done, Done);
    DriveSnoc(hub, p, two, ProofFetched(proof));
    DriveAppend(hub, p, two + [ProofFetched(proof)], Done, Done);
  }

  lemma ExpiryStretch(hub: Address, s: StoreState, hash: ProofId, now: int)
    requires !s.closed && hash in s.table && MetadataOf(s.table[hash]).Some?
    requires MetadataOf(s.table[hash]).value.expiresAt <= now
    ensures Then3(hub, (s, RefreshLoaded(hash, s.table[hash])), Clock(now))
      == (s.(table := ExpiredIn(s.table, hash)), Thrown)
  {
    StoreCallEnds(hub, s, hash, Expired, NON_TERMINAL, NO_DETAILS, ThrowExpired);
  }

  /** From WAITING_FINALIZATION to the end. */
  lemma WaitingToEnd(hub: Address, s: StoreState, hash: ProofId, m: Metadata, finalized: bool, proof: Bytes)
    requires !s.closed && hash in s.table && s.table[hash].status.WaitingFinalization?
    requires s.table[hash].votingRound.Some?
    ensures var r := s.table[hash];
      Then3(hub, Then3(hub, (s, AwaitFinality(hash, m, r, r.votingRound.value)), Finality(finalized)),
            ProofFetched(proof))
      == if finalized then (s.(table := s.table[hash := AtProofReady(r)]), ReturnedProof(hash, proof, AtProofReady(r)))
         else (s, Thrown)
  {
    var r := s.table[hash];
    FinalityStretch(hub, s, hash, m, r, r.votingRound.value, finalized);
    if finalized {
      var s' := Moved(s, hash, FetchingProof);
      FetchStretch(hub, s', hash, m, s'.table[hash], r.votingRound.value, proof);
      assert s'.table[hash := AtProofReady(r)] == s.table[hash := AtProofReady(r)];
    }
  }

  lemma SubmittedToEnd(hub: Address, s: StoreState, hash: ProofId, now: int, finalized: bool, proof: Bytes)
    requires !s.closed && hash in s.table && s.table[hash].status.Submitted? && s.table[hash].votingRound.Some?
    requires MetadataOf(s.table[hash]).Some? && MetadataOf(s.table[hash]).value.expiresAt > now
    ensures var p := Then3(hub, Then3(hub, Then3(hub, (s, RefreshLoaded(hash, s.table[hash])), Clock(now)),
                                      Finality(finalized)), ProofFetched(proof));
      !p.0.closed && RefreshOutcome(s.table, hash, now, finalized, proof, p.0.table, p.1)
  {
    var r := s.table[hash];
    WaitingStretch(hub, s, hash, r, now);
    var s' := Moved(s, hash, WaitingFinalization);
    WaitingToEnd(hub, s', hash, MetadataOf(r).value, finalized, proof);
    assert s'.table[hash := AtProofReady(r)] == s.table[hash := AtProofReady(r)];
  }

  lemma LaterToEnd(hub: Address, s: StoreState, hash: ProofId, now: int, finalized: bool, proof: Bytes)
    requires !s.closed && hash in s.table && MetadataOf(s.table[hash]).Some?
    requires MetadataOf(s.table[hash]).value.expiresAt > now && !s.table[hash].status.Submitted?
    requires Rank(s.table[hash].status) in {3, 4, 5} ==> s.table[hash].votingRound.Some?
    ensures var p := Then3(hub, Then3(hub, Then3(hub, (s, RefreshLoaded(hash, s.table[hash])), Clock(now)),
                                      Finality(finalized)), ProofFetched(proof));
      !p.0.closed && RefreshOutcome(s.table, hash, now, finalized, proof, p.0.table, p.1)
  {
    var (r, m) := (s.table[hash], MetadataOf(s.table[hash]).value);
    if r.status.WaitingFinalization? {
      WaitingToEnd(hub, s, hash, m, finalized, proof);
    } else if r.status.FetchingProof? || r.status.ProofReady? {
      FetchStretch(hub, s, hash, m, r, r.votingRound.value, proof);
      assert r.status.ProofReady? ==> s.table[hash := r] == s.table;
    }
  }

  lemma RefreshDriven(hub: Address, s: StoreState, hash: ProofId, now: int, finalized: bool, proof: Bytes)
    requires !s.closed && hash in s.table && MetadataOf(s.table[hash]).Some?
    requires Rank(s.table[hash].status) in {2, 3, 4, 5} ==> s.table[hash].votingRound.Some?
    ensures var p := Drive(hub, (s, RefreshLoaded(hash, s.table[hash])), RefreshReplies(now, finalized, proof));
      !p.0.closed && RefreshOutcome(s.table, hash, now, finalized, proof, p.0.table, p.1)
  {
    RefreshInThree(hub, (s, RefreshLoaded(hash, s.table[hash])), now, finalized, proof);
    if MetadataOf(s.table[hash]).value.expiresAt <= now {
      ExpiryStretch(hub, s, hash, now);
    } else if s.table[hash].status.Submitted? {
      SubmittedToEnd(hub, s, hash, now, finalized, proof);
    } else {
      LaterToEnd(hub, s, hash, now, finalized, proof);
    }
  }

  /** An undisturbed `refresh` returns the fetched proof and leaves the record at PROOF_READY exactly when it found
      the record between SUBMITTED and PROOF_READY, not expired, and the round final where it had to ask. */
  lemma RefreshAlone(hub: Address, actions: seq<Action>, call: nat, hash: ProofId, now: int, finalized: bool,
                     proof: Bytes)
    requires var s := Run(Fresh(hub), actions); call !in s.frames && !s.store.closed && hash in s.store.table
    ensures var s := Run(Fresh(hub), actions);
      var t := Alone(s, Refresh(call, hash), call, RefreshReplies(now, finalized, proof));
      && OnlyCall(s, t, call) && s.store.table[hash].expiresAt.Some?
      && RefreshOutcome(s.store.table, hash, now, finalized, proof, t.store.table, t.frames[call])
  {
    RunSafe(hub, actions);
    var s := Run(Fresh(hub), actions);
    AloneEnds(s, Refresh(call, hash), call, s.store, RefreshLoaded(hash, s.store.table[hash]),
              RefreshReplies(now, finalized, proof));
    RefreshDriven(hub, s.store, hash, now, finalized, proof);
  }

  // ---- prepare ------------------------------------------------------------------

  /** A new request is stored with everything that was gathered and nothing else, unless a record with its hash is
      there already; the caller is told the stored record. */
  ghost predicate PreparationOutcome(table: map<ProofId, Record>, i: PrepareInput, table': map<ProofId, Record>,
                                     end: Frame)
  {
    var hash := Keccak(i.m.requestBytes);
    if !i.sourceIsTestXrp || i.m.requiredFeeWei < 0 then table' == table && end == Thrown
    else if hash in table then table' == table && end == Returned(hash, table[hash])
    else
      && hash in table' && table' == table[hash := table'[hash]] && end == Returned(hash, table'[hash])
      && var r := table'[hash];
      && r.id == hash && r.requestBytesHash == hash && r.accountId == i.accountId && r.txHash == i.txHash
      && r.requestBytes == Some(i.m.requestBytes) && r.proofOwner == Some(i.m.proofOwner)
      && r.requiredFeeWei == Some(i.m.requiredFeeWei) && r.expiresAt == Some(i.m.expiresAt)
      && r.purpose == i.purpose && r.contextId == i.contextId && r.status == ReadyToSubmit
      && r.requestTx.None? && r.votingRound.None? && r.failure.None? && r.coreEventTx.None?
  }

  lemma PreparationDriven(hub: Address, s: StoreState, i: PrepareInput)
    requires !s.closed && i.sourceIsTestXrp && i.m.requiredFeeWei >= 0
    requires forall k | k in s.table :: s.table[k].id == k
    ensures var p := Drive(hub, AfterMark(s.CreateOrGetPrepared(NewRecord(i)), Keccak(i.m.requestBytes), ReturnIt),
                           [Done, Done]);
      !p.0.closed && PreparationOutcome(s.table, i, p.0.table, p.1)
  {
    Drive2(hub, AfterMark(s.CreateOrGetPrepared(NewRecord(i)), Keccak(i.m.requestBytes), ReturnIt), Done, Done);
  }

  lemma IdsAreHashes(s: System)
    requires Safe(s)
    ensures forall k | k in s.store.table :: s.store.table[k].id == k
  {
    forall k | k in s.store.table ensures s.store.table[k].id == k {
      assert Justified(s.seen, s.hub, k, s.store.table[k]);
    }
  }

  lemma PrepareAlone(hub: Address, actions: seq<Action>, call: nat, i: PrepareInput)
    requires var s := Run(Fresh(hub), actions); call !in s.frames && !s.store.closed
    ensures var s := Run(Fresh(hub), actions);
      var t := Alone(s, Prepare(call, i), call, [Done, Done]);
      OnlyCall(s, t, call) && PreparationOutcome(s.store.table, i, t.store.table, t.frames[call])
  {
    RunSafe(hub, actions);
    var s := Run(Fresh(hub), actions);
    IdsAreHashes(s);
    if !i.sourceIsTestXrp || i.m.requiredFeeWei < 0 {
      AloneEnds(s, Prepare(call, i), call, s.store, Thrown, [Done, Done]);
      FinishedStays(hub, (s.store, Thrown), [Done, Done]);
    } else {
      var p := AfterMark(s.store.CreateOrGetPrepared(NewRecord(i)), Keccak(i.m.requestBytes), ReturnIt);
      AloneEnds(s, Prepare(call, i), call, p.0, p.1, [Done, Done]);
      PreparationDriven(hub, s.store, i);
    }
  }

  // ---- Failures -----------------------------------------------------------------

  predicate Waits(f: Frame) {
    || f.AwaitReceipt? || f.AwaitParameters? || f.AwaitFinality? || f.AwaitProof? || f.AwaitOutcome?
    || f.Persisting?
  }

  /** A dependency or a file that fails ends the call that waits for it, and nothing is written. */
  lemma FailureEnds(hub: Address, s: StoreState, f: Frame)
    ensures Resume(hub, s, f, Reply.Failure).0 == s
    ensures Waits(f) ==> Resume(hub, s, f, Reply.Failure).1 == Thrown
  {}

  /** A call for a request the open store does not hold ends at once. */
  lemma UnknownEnds(s: System, a: Action)
    requires a.RecordSubmitted? || a.Refresh? || a.ConfirmCoreSubmission?
    requires a.call !in s.frames && (s.store.closed || a.hash !in s.store.table)
    ensures Act(s, a) == s.(frames := s.frames[a.call := Thrown])
  {}

  /** Closing keeps every record; afterwards nothing is ever written, and the store stays closed. */
  lemma {:induction false} ClosedForGood(s: System, actions: seq<Action>)
    ensures var t := Run(Act(s, Close), actions); t.store.closed && t.store.table == s.store.table
  {
    if actions != [] {
      ClosedForGood(s, actions[..|actions| - 1]);
      ClosedStays(Run(Act(s, Close), actions[..|actions| - 1]), actions[|actions| - 1]);
    }
  }

  lemma ClosedStays(s: System, a: Action)
    requires s.store.closed
    ensures Act(s, a).store == s.store
  {}

  // ---- A whole life -------------------------------------------------------------

  lemma {:induction false} RunAppend(s: System, a: seq<Action>, b: seq<Action>)
    ensures Run(s, a + b) == Run(Run(s, a), b)
  {
    if b == [] {
      assert a + b == a;
    } else {
      RunAppend(s, a, b[..|b| - 1]);
      assert (a + b)[..|a + b| - 1] == a + b[..|b| - 1];
    }
  }

  function Beginning(i: PrepareInput, tx: TransactionHash, receipt: Receipt, first: int, duration: int, now: int)
    : seq<Action>
  {
    [Prepare(0, i)] + Continues(0, [Done, Done])
    + ([RecordSubmitted(1, Keccak(i.m.requestBytes), tx)]
       + Continues(1, [Clock(now), ReceiptRead(receipt), ParametersRead(first, duration)] + [Done, Done]))
  }

  function Ending(hash: ProofId, now: int, proof: Bytes, coreTx: TransactionHash): seq<Action> {
    [Refresh(2, hash)] + Continues(2, RefreshReplies(now, true, proof))
    + ([ConfirmCoreSubmission(3, hash, coreTx)] + Continues(3, [Done, OutcomeRead(CoreVerified)] + [Done, Done]))
  }

  /** `r` is the request of `i`, sent in `tx`, whose block lies in the stored round. */
  predicate SentFor(r: Record, i: PrepareInput, tx: TransactionHash, receipt: Receipt, first: int, duration: int) {
    && r.accountId == i.accountId && r.txHash == i.txHash && r.expiresAt == Some(i.m.expiresAt)
    && r.requestTx == Some(tx) && r.votingRound.Some?
    && InRound(receipt.blockTimestamp, first, duration, r.votingRound.value)
  }

  lemma BeginningSubmits(hub: Address, i: PrepareInput, tx: TransactionHash, receipt: Receipt, first: int,
                         duration: int, now: int)
    requires i.sourceIsTestXrp && i.m.requiredFeeWei >= 0 && now < i.m.expiresAt
    requires receipt.chainId == 114 && receipt.success && receipt.to == hub && duration > 0
    requires receipt.requestBytes == i.m.requestBytes && receipt.paidFeeWei == i.m.requiredFeeWei
    requires receipt.blockTimestamp >= first
    ensures var s := Run(Fresh(hub), Beginning(i, tx, receipt, first, duration, now));
      var hash := Keccak(i.m.requestBytes);
      && s.frames.Keys == {0, 1} && !s.store.closed && hash in s.store.table
      && s.store.table[hash].status.Submitted? && SentFor(s.store.table[hash], i, tx, receipt, first, duration)
  {
    var hash := Keccak(i.m.requestBytes);
    var a := [Prepare(0, i)] + Continues(0, [Done, Done]);
    RunAppend(Fresh(hub), a,
              [RecordSubmitted(1, hash, tx)]
              + Continues(1, [Clock(now), ReceiptRead(receipt), ParametersRead(first, duration)] + [Done, Done]));
    assert Run(Fresh(hub), []) == Fresh(hub);
    PrepareAlone(hub, [], 0, i);
    RecordSubmittedAlone(hub, a, 1, hash, tx, now, receipt, first, duration);
  }

  lemma EndingVerifies(hub: Address, before: seq<Action>, hash: ProofId, now: int, proof: Bytes,
                       coreTx: TransactionHash)
    requires var s := Run(Fresh(hub), before);
      && s.frames.Keys == {0, 1} && !s.store.closed && hash in s.store.table && s.store.table[hash].status.Submitted?
      && s.store.table[hash].expiresAt.Some? && now < s.store.table[hash].expiresAt.value
    ensures var (s, t) := (Run(Fresh(hub), before), Run(Fresh(hub), before + Ending(hash, now, proof, coreTx)));
      && hash in t.store.table
      && t.store.table[hash] == s.store.table[hash].(status := Verified, coreEventTx := Some(coreTx), failure := None)
      && 2 in t.frames && t.frames[2].ReturnedProof? && t.frames[2].proof == proof
  {
    var c := [Refresh(2, hash)] + Continues(2, RefreshReplies(now, true, proof));
    var d := [ConfirmCoreSubmission(3, hash, coreTx)] + Continues(3, [Done, OutcomeRead(CoreVerified)] + [Done, Done]);
    RunAppend(Fresh(hub), before, c);
    RunAppend(Fresh(hub), before + c, d);
    assert before + c + d == before + Ending(hash, now, proof, coreTx);
    RefreshAlone(hub, before, 2, hash, now, true, proof);
    ConfirmAlone(hub, before + c, 3, hash, coreTx, CoreVerified);
  }

  /** Four calls take a new request from nothing to VERIFIED, when the dependencies answer as they should. */
  lemma LifeCompletes(hub: Address, i: PrepareInput, tx: TransactionHash, receipt: Receipt, first: int, duration: int,
                      now: int, proof: Bytes, coreTx: TransactionHash)
    requires i.sourceIsTestXrp && i.m.requiredFeeWei >= 0 && now < i.m.expiresAt
    requires receipt.chainId == 114 && receipt.success && receipt.to == hub && duration > 0
    requires receipt.requestBytes == i.m.requestBytes && receipt.paidFeeWei == i.m.requiredFeeWei
    requires receipt.blockTimestamp >= first
    ensures var hash := Keccak(i.m.requestBytes);
      var s := Run(Fresh(hub), Beginning(i, tx, receipt, first, duration, now) + Ending(hash, now, proof, coreTx));
      && hash in s.store.table && s.store.table[hash].status.Verified?
      && s.store.table[hash].coreEventTx == Some(coreTx)
      && SentFor(s.store.table[hash], i, tx, receipt, first, duration)
      && 2 in s.frames && s.frames[2].ReturnedProof? && s.frames[2].proof == proof
  {
    BeginningSubmits(hub, i, tx, receipt, first, duration, now);
    EndingVerifies(hub, Beginning(i, tx, receipt, first, duration, now), Keccak(i.m.requestBytes), now, proof, coreTx);
  }
}
