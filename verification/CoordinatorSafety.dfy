/** What every interleaving of the coordinator's calls keeps. */
module CoordinatorSafety {
  import opened AttestationStore
  import opened VotingRound
  import opened Coordinator

  // ---- The allowed graph --------------------------------------------------------

  predicate Edge(s: Status, t: Status) {
    match t
    case Submitted => s.ReadyToSubmit?
    case WaitingFinalization => s.Submitted?
    case FetchingProof => s.WaitingFinalization?
    case ProofReady => s.FetchingProof?
    case Verified => s.ProofReady?
    case Failed => s.ProofReady?
    case Expired => !Terminal(s)
    case _ => false
  }

  function Rank(s: Status): nat {
    match s
    case Preparing => 0
    case ReadyToSubmit => 1
    case Submitted => 2
    case WaitingFinalization => 3
    case FetchingProof => 4
    case ProofReady => 5
    case _ => 6
  }

  /** `t` is `s` or lies on a path from `s`. */
  predicate Later(s: Status, t: Status) { s == t || Rank(s) < Rank(t) }

  // ---- One record ---------------------------------------------------------------

  /** What `prepare` wrote never changes again. */
  ghost predicate SamePrepared(a: Record, b: Record) {
    b == a.(requestTx := b.requestTx, votingRound := b.votingRound, status := b.status, failure := b.failure,
            coreEventTx := b.coreEventTx)
  }

  /** `b` is `a` some transitions later: the status only advances, and what was set once stays. */
  ghost predicate Advanced(a: Record, b: Record) {
    && SamePrepared(a, b)
    && Later(a.status, b.status)
    && (a.votingRound.Some? ==> b.votingRound == a.votingRound && b.requestTx == a.requestTx)
    && (a.coreEventTx.Some? ==> b.coreEventTx == a.coreEventTx)
    && (Terminal(a.status) ==> b == a)
  }

  /** One call for this request read a receipt for `tx` that pays for exactly this request on Coston2, and then
      the round parameters by which that receipt's block lies in `round`. */
  ghost predicate SubmissionSeen(seen: set<Observation>, hub: Address, hash: ProofId, m: Metadata, tx: TransactionHash,
                                 round: nat)
  {
    exists receipt, first, duration ::
      && SawReceipt(tx, receipt) in seen && SawParameters(hash, tx, receipt, first, duration) in seen
      && ReceiptValid(receipt, hub, m) && InRound(receipt.blockTimestamp, first, duration, round)
  }

  ghost predicate FailureSeen(seen: set<Observation>, r: Record) {
    exists tx :: r.failure.Some? && SawOutcome(r.accountId, r.txHash, tx, Rejected(r.failure.value)) in seen
  }

  ghost predicate ExpirySeen(seen: set<Observation>, r: Record) {
    exists now :: SawClock(now) in seen && r.expiresAt.Some? && r.expiresAt.value <= now
  }

  /** The evidence a record's status stands on. */
  ghost predicate Justified(seen: set<Observation>, hub: Address, hash: ProofId, r: Record) {
    && r.id == r.requestBytesHash == hash
    && MetadataOf(r).Some? && hash == Keccak(MetadataOf(r).value.requestBytes)
    && !r.status.Preparing?
    && (r.votingRound.Some? <==> r.requestTx.Some?)
    && (r.status.ReadyToSubmit? ==> r.votingRound.None?)
    && (Rank(r.status) >= 2 && !r.status.Expired? ==> r.votingRound.Some?)
    && (r.votingRound.Some? ==>
      SubmissionSeen(seen, hub, hash, MetadataOf(r).value, r.requestTx.value, r.votingRound.value))
    && (Rank(r.status) >= 4 && !r.status.Expired? ==> SawFinalized(r.votingRound.value) in seen)
    && (r.coreEventTx.Some? <==> r.status.Verified?)
    && (r.status.Verified? ==> SawOutcome(r.accountId, r.txHash, r.coreEventTx.value, CoreVerified) in seen)
    && (r.status.Failed? ==> FailureSeen(seen, r))
    && (r.status.Expired? ==> ExpirySeen(seen, r))
  }

  ghost predicate TableJustified(s: System) {
    forall h | h in s.store.table :: Justified(s.seen, s.hub, h, s.store.table[h])
  }

  // ---- Frames and their stale locals --------------------------------------------

  /** `record` was read from the store at some point: justified then, and only overtaken since. */
  ghost predicate Stale(s: System, hash: ProofId, record: Record) {
    hash in s.store.table && Justified(s.seen, s.hub, hash, record) && Advanced(record, s.store.table[hash])
  }

  ghost predicate Known(s: System, hash: ProofId, m: Metadata) {
    hash in s.store.table && MetadataOf(s.store.table[hash]) == Some(m)
  }

  ghost predicate FinalitySeen(s: System, hash: ProofId) {
    && hash in s.store.table && s.store.table[hash].votingRound.Some?
    && SawFinalized(s.store.table[hash].votingRound.value) in s.seen
  }

  /** `proof` is what the DA layer answered for the record's own request bytes and voting round. */
  ghost predicate ProofSeen(s: System, hash: ProofId, proof: Bytes) {
    && hash in s.store.table && s.store.table[hash].requestBytes.Some? && s.store.table[hash].votingRound.Some?
    && SawProof(s.store.table[hash].requestBytes.value, s.store.table[hash].votingRound.value, proof) in s.seen
  }

  ghost predicate ThenOk(s: System, hash: ProofId, next: Then) {
    match next
    case RefreshWaiting(m) => Known(s, hash, m)
    case RefreshFetching(m) => Known(s, hash, m)
    case RefreshReady(proof) => FinalitySeen(s, hash) && ProofSeen(s, hash, proof)
    case _ => true
  }

  ghost predicate FrameOk(s: System, f: Frame) {
    match f
    case SubmitLoaded(hash, tx, record) => Stale(s, hash, record)
    case AwaitReceipt(hash, tx, m) => Known(s, hash, m)
    case AwaitParameters(hash, tx, m, receipt) =>
      Known(s, hash, m) && SawReceipt(tx, receipt) in s.seen && ReceiptValid(receipt, s.hub, m)
    case RefreshLoaded(hash, record) => Stale(s, hash, record)
    case AwaitFinality(hash, m, record, round) =>
      Stale(s, hash, record) && record.status.WaitingFinalization? && record.votingRound == Some(round)
        && Known(s, hash, m)
    case AwaitProof(hash, m, record, round) =>
      Stale(s, hash, record) && (record.status.FetchingProof? || record.status.ProofReady?)
        && record.votingRound == Some(round) && Known(s, hash, m)
    case ConfirmLoaded(hash, tx, record) => Stale(s, hash, record)
    case AwaitOutcome(hash, tx, record) => Stale(s, hash, record) && record.status.ProofReady?
    case Persisting(hash, next) => hash in s.store.table && ThenOk(s, hash, next)
    case Resolved(hash, record, next) =>
      && Stale(s, hash, record) && ThenOk(s, hash, next)
      && (next.RefreshReady? ==> record.votingRound == s.store.table[hash].votingRound)
    case Returned(hash, record) => Stale(s, hash, record)
    case ReturnedProof(hash, proof, record) =>
      Stale(s, hash, record) && FinalitySeen(s, hash) && ProofSeen(s, hash, proof)
        && record.votingRound == s.store.table[hash].votingRound
    case Thrown => true
  }

  ghost predicate Safe(s: System) {
    TableJustified(s) && forall c | c in s.frames :: FrameOk(s, s.frames[c])
  }

  // ---- Other calls do not disturb a frame ---------------------------------------

  ghost predicate Grew(s: System, t: System) {
    && t.hub == s.hub && s.seen <= t.seen
    && forall h | h in s.store.table :: h in t.store.table && Advanced(s.store.table[h], t.store.table[h])
  }

  lemma AdvancedTransitive(a: Record, b: Record, c: Record)
    requires Advanced(a, b) && Advanced(b, c)
    ensures Advanced(a, c)
  {}

  lemma JustifiedStays(seen: set<Observation>, more: set<Observation>, hub: Address, hash: ProofId, r: Record)
    requires Justified(seen, hub, hash, r) && seen <= more
    ensures Justified(more, hub, hash, r)
  {
    if r.votingRound.Some? {
      var (m, round) := (MetadataOf(r).value, r.votingRound.value);
      var receipt, first, duration :|
        && SawReceipt(r.requestTx.value, receipt) in seen
        && SawParameters(hash, r.requestTx.value, receipt, first, duration) in seen
        && ReceiptValid(receipt, hub, m) && InRound(receipt.blockTimestamp, first, duration, round);
      assert SubmissionSeen(more, hub, hash, m, r.requestTx.value, round);
    }
  }

  lemma StaleStays(s: System, t: System, hash: ProofId, r: Record)
    requires Stale(s, hash, r) && Grew(s, t)
    ensures Stale(t, hash, r)
  {
    JustifiedStays(s.seen, t.seen, s.hub, hash, r);
    AdvancedTransitive(r, s.store.table[hash], t.store.table[hash]);
  }

  predicate Waiting(f: Frame) {
    f.AwaitFinality? || f.AwaitProof? || f.AwaitOutcome? || f.Resolved? || f.ReturnedProof?
  }

  lemma WaitingStays(s: System, t: System, f: Frame)
    requires FrameOk(s, f) && Grew(s, t) && Waiting(f)
    ensures FrameOk(t, f)
  {
    StaleStays(s, t, f.hash, f.record);
  }

  lemma FrameStays(s: System, t: System, f: Frame)
    requires FrameOk(s, f) && Grew(s, t)
    ensures FrameOk(t, f)
  {
    if Waiting(f) {
      WaitingStays(s, t, f);
    } else if f.SubmitLoaded? || f.RefreshLoaded? || f.ConfirmLoaded? || f.Returned? {
      StaleStays(s, t, f.hash, f.record);
    }
  }

  // ---- One segment --------------------------------------------------------------

  /** The table `t` differs from `s` in at most the record `hash`, which took one edge and is justified. */
  ghost predicate OneEdge(s: System, t: System, hash: ProofId) {
    && t.hub == s.hub && s.seen <= t.seen && hash in s.store.table && hash in t.store.table
    && t.store.table == s.store.table[hash := t.store.table[hash]]
    && (t.store.table[hash] == s.store.table[hash]
        || (Edge(s.store.table[hash].status, t.store.table[hash].status)
          && Advanced(s.store.table[hash], t.store.table[hash])))
    && Justified(t.seen, t.hub, hash, t.store.table[hash])
  }

  lemma OneEdgeGrows(s: System, t: System, hash: ProofId)
    requires TableJustified(s) && OneEdge(s, t, hash)
    ensures Grew(s, t) && TableJustified(t)
  {
    forall h | h in t.store.table ensures Justified(t.seen, t.hub, h, t.store.table[h]) {
      if h != hash { JustifiedStays(s.seen, t.seen, s.hub, h, s.store.table[h]); }
    }
  }

  /** A segment keeps the table justified, moves at most one record along one edge, and leaves a correct frame. */
  ghost predicate Settled(s: System, seen: set<Observation>, result: (StoreState, Frame)) {
    var t := s.(store := result.0, seen := seen);
    TableJustified(t) && Grew(s, t) && FrameOk(t, result.1)
  }

  ghost predicate Done(s: System, seen: set<Observation>, result: (StoreState, Frame)) {
    Settled(s, seen, result) && OneEdgeOrNone(s, s.(store := result.0, seen := seen))
  }

  ghost predicate SegmentOk(s: System, f: Frame, r: Reply) {
    Done(s, s.seen + Noted(f, r), Resume(s.hub, s.store, f, r))
  }

  ghost predicate OneEdgeOrNone(s: System, t: System) {
    t.store.table == s.store.table || exists h :: OneEdge(s, t, h)
  }

  /** A segment that does not write. */
  lemma QuietSegment(s: System, seen: set<Observation>, f': Frame)
    requires TableJustified(s) && s.seen <= seen && FrameOk(s.(seen := seen), f')
    ensures Done(s, seen, (s.store, f'))
  {
    var t := s.(seen := seen);
    forall h | h in t.store.table ensures Justified(t.seen, t.hub, h, t.store.table[h]) {
      JustifiedStays(s.seen, t.seen, s.hub, h, s.store.table[h]);
    }
  }

  /** More observations alone disturb nothing. */
  lemma SeenMore(s: System, f: Frame, more: set<Observation>)
    requires FrameOk(s, f) && s.seen <= more
    ensures FrameOk(s.(seen := more), f)
  {
    FrameStays(s, s.(seen := more), f);
  }

  /** The transition `to` is an edge from the stored status, and justified by what has been seen. */
  ghost predicate MarkAllowed(s: System, hash: ProofId, to: Status, allowed: set<Status>, d: Details,
                              seen: set<Observation>)
  {
    && hash in s.store.table && s.seen <= seen
    && var r := s.store.table[hash];
    r.status in allowed && r.status != to ==>
      Edge(r.status, to) && Advanced(r, Updated(r, to, d)) && Justified(seen, s.hub, hash, Updated(r, to, d))
  }

  lemma MarkEffect(s: System, hash: ProofId, to: Status, allowed: set<Status>, d: Details, seen: set<Observation>)
    requires TableJustified(s) && MarkAllowed(s, hash, to, allowed, d, seen)
    ensures OneEdge(s, s.(store := s.store.Transition(hash, to, allowed, d).0, seen := seen), hash)
  {
    var t := s.(store := s.store.Transition(hash, to, allowed, d).0, seen := seen);
    JustifiedStays(s.seen, seen, s.hub, hash, s.store.table[hash]);
    assert t.store.table == s.store.table[hash := t.store.table[hash]];
  }

  lemma MarkFrame(s: System, hash: ProofId, to: Status, allowed: set<Status>, d: Details, next: Then,
                  seen: set<Observation>)
    requires hash in s.store.table
    requires var t := s.(store := s.store.Transition(hash, to, allowed, d).0, seen := seen);
      hash in t.store.table && Justified(t.seen, t.hub, hash, t.store.table[hash]) && ThenOk(t, hash, next)
    ensures var r := s.store.Transition(hash, to, allowed, d);
      FrameOk(s.(store := r.0, seen := seen), AfterMark(r, hash, next).1)
  {}

  /** A segment that ends in a store transition. */
  lemma MarkSegment(s: System, seen: set<Observation>, hash: ProofId, to: Status, allowed: set<Status>, d: Details,
                    next: Then)
    requires TableJustified(s) && MarkAllowed(s, hash, to, allowed, d, seen)
    requires ThenOk(s.(store := s.store.Transition(hash, to, allowed, d).0, seen := seen), hash, next)
    ensures Done(s, seen, AfterMark(s.store.Transition(hash, to, allowed, d), hash, next))
  {
    var t := s.(store := s.store.Transition(hash, to, allowed, d).0, seen := seen);
    MarkEffect(s, hash, to, allowed, d, seen);
    OneEdgeGrows(s, t, hash);
    MarkFrame(s, hash, to, allowed, d, next, seen);
    AfterMarkStore(s.store.Transition(hash, to, allowed, d), hash, next);
  }

  lemma AfterMarkStore(r: (StoreState, Attempt), hash: ProofId, next: Then)
    ensures AfterMark(r, hash, next).0 == r.0
  {}

  // ---- recordSubmitted ----------------------------------------------------------

  /** The clock shows that the request has expired. */
  lemma ExpireSegment(s: System, seen: set<Observation>, hash: ProofId, record: Record, now: int)
    requires TableJustified(s) && Stale(s, hash, record) && MetadataOf(record).Some?
    requires s.seen <= seen && SawClock(now) in seen && MetadataOf(record).value.expiresAt <= now
    ensures Done(s, seen, AfterMark(s.store.MarkExpired(hash), hash, ThrowExpired))
  {
    var stored := s.store.table[hash];
    JustifiedStays(s.seen, seen, s.hub, hash, stored);
    assert SawClock(now) in seen && stored.expiresAt.value <= now;
    MarkSegment(s, seen, hash, Expired, NON_TERMINAL, NO_DETAILS, ThrowExpired);
  }

  lemma SubmitLoadedSegment(s: System, f: Frame, r: Reply)
    requires TableJustified(s) && FrameOk(s, f) && f.SubmitLoaded?
    ensures SegmentOk(s, f, r)
  {
    var seen := s.seen + Noted(f, r);
    if r.Clock? && MetadataOf(f.record).value.expiresAt <= r.now {
      ExpireSegment(s, seen, f.hash, f.record, r.now);
    } else {
      SeenMore(s, f, s.seen + Noted(f, r));
      QuietSegment(s, s.seen + Noted(f, r), Resume(s.hub, s.store, f, r).1);
    }
  }

  lemma AwaitReceiptSegment(s: System, f: Frame, r: Reply)
    requires TableJustified(s) && FrameOk(s, f) && f.AwaitReceipt?
    ensures SegmentOk(s, f, r)
  {
    QuietSegment(s, s.seen + Noted(f, r), Resume(s.hub, s.store, f, r).1);
  }

  lemma AwaitParametersSegment(s: System, f: Frame, r: Reply)
    requires TableJustified(s) && FrameOk(s, f) && f.AwaitParameters?
    ensures SegmentOk(s, f, r)
  {
    var seen := s.seen + Noted(f, r);
    if r.ParametersRead? && VotingRoundForRequestBlock(f.receipt.blockTimestamp, r.first, r.duration).Round? {
      var round := VotingRoundForRequestBlock(f.receipt.blockTimestamp, r.first, r.duration).id;
      RoundContainsBlock(f.receipt.blockTimestamp, r.first, r.duration, round);
      JustifiedStays(s.seen, seen, s.hub, f.hash, s.store.table[f.hash]);
      assert SawParameters(f.hash, f.tx, f.receipt, r.first, r.duration) in seen;
      assert SubmissionSeen(seen, s.hub, f.hash, f.m, f.tx, round);
      MarkSegment(s, seen, f.hash, Submitted, {ReadyToSubmit}, Details(Some(f.tx), None, None, Some(round)), ReturnIt);
    } else {
      SeenMore(s, f, seen);
      QuietSegment(s, s.seen + Noted(f, r), Resume(s.hub, s.store, f, r).1);
    }
  }

  // ---- refresh ------------------------------------------------------------------

  lemma FromWaitingFrame(s: System, hash: ProofId, m: Metadata, record: Record)
    requires Stale(s, hash, record) && Known(s, hash, m)
    ensures RefreshFromWaiting(s.store, hash, m, record).0 == s.store
    ensures FrameOk(s, RefreshFromWaiting(s.store, hash, m, record).1)
    ensures RefreshFromFetching(s.store, hash, m, record).0 == s.store
    ensures FrameOk(s, RefreshFromFetching(s.store, hash, m, record).1)
  {}

  lemma RefreshLoadedSegment(s: System, f: Frame, r: Reply)
    requires TableJustified(s) && FrameOk(s, f) && f.RefreshLoaded?
    ensures SegmentOk(s, f, r)
  {
    var seen := s.seen + Noted(f, r);
    var m := MetadataOf(f.record).value;
    if r.Clock? && m.expiresAt <= r.now {
      ExpireSegment(s, seen, f.hash, f.record, r.now);
    } else if r.Clock? && f.record.status.Submitted? {
      JustifiedStays(s.seen, seen, s.hub, f.hash, s.store.table[f.hash]);
      MarkSegment(s, seen, f.hash, WaitingFinalization, {Submitted}, NO_DETAILS, RefreshWaiting(m));
    } else {
      SeenMore(s, f, seen);
      FromWaitingFrame(s.(seen := seen), f.hash, m, f.record);
      QuietSegment(s, s.seen + Noted(f, r), Resume(s.hub, s.store, f, r).1);
    }
  }

  lemma AwaitFinalitySegment(s: System, f: Frame, r: Reply)
    requires TableJustified(s) && FrameOk(s, f) && f.AwaitFinality?
    ensures SegmentOk(s, f, r)
  {
    var seen := s.seen + Noted(f, r);
    if r.Finality? && r.finalized {
      JustifiedStays(s.seen, seen, s.hub, f.hash, s.store.table[f.hash]);
      MarkSegment(s, seen, f.hash, FetchingProof, {WaitingFinalization}, NO_DETAILS, RefreshFetching(f.m));
    } else {
      SeenMore(s, f, seen);
      QuietSegment(s, s.seen + Noted(f, r), Resume(s.hub, s.store, f, r).1);
    }
  }

  lemma AwaitProofSegment(s: System, f: Frame, r: Reply)
    requires TableJustified(s) && FrameOk(s, f) && f.AwaitProof?
    ensures SegmentOk(s, f, r)
  {
    var seen := s.seen + Noted(f, r);
    if r.ProofFetched? && f.record.status.FetchingProof? {
      JustifiedStays(s.seen, seen, s.hub, f.hash, s.store.table[f.hash]);
      MarkSegment(s, seen, f.hash, ProofReady, {FetchingProof}, NO_DETAILS, RefreshReady(r.proof));
    } else {
      SeenMore(s, f, seen);
      QuietSegment(s, s.seen + Noted(f, r), Resume(s.hub, s.store, f, r).1);
    }
  }

  // ---- confirmCoreSubmission ----------------------------------------------------

  lemma ConfirmLoadedSegment(s: System, f: Frame, r: Reply)
    requires TableJustified(s) && FrameOk(s, f) && f.ConfirmLoaded?
    ensures SegmentOk(s, f, r)
  {
    SeenMore(s, f, s.seen + Noted(f, r));
    QuietSegment(s, s.seen + Noted(f, r), Resume(s.hub, s.store, f, r).1);
  }

  lemma VerifySegment(s: System, seen: set<Observation>, hash: ProofId, record: Record, tx: TransactionHash)
    requires TableJustified(s) && Stale(s, hash, record) && record.status.ProofReady? && s.seen <= seen
    requires SawOutcome(record.accountId, record.txHash, tx, CoreVerified) in seen
    ensures Done(s, seen, AfterMark(s.store.MarkVerifiedFromCoreEvent(hash, tx), hash, ReturnIt))
  {
    JustifiedStays(s.seen, seen, s.hub, hash, s.store.table[hash]);
    MarkSegment(s, seen, hash, Verified, {ProofReady}, NO_DETAILS.(coreEventTx := Some(tx)), ReturnIt);
  }

  /** The store would fail any record that is not terminal; the stale local says that this one is past every
      such status but PROOF_READY. */
  lemma FailSegment(s: System, seen: set<Observation>, hash: ProofId, record: Record, tx: TransactionHash,
                    failure: Failure)
    requires TableJustified(s) && Stale(s, hash, record) && record.status.ProofReady? && s.seen <= seen
    requires SawOutcome(record.accountId, record.txHash, tx, Rejected(failure)) in seen
    ensures Done(s, seen, AfterMark(s.store.MarkFailed(hash, failure), hash, ReturnIt))
  {
    var d := NO_DETAILS.(failure := Some(failure));
    var stored := s.store.table[hash];
    JustifiedStays(s.seen, seen, s.hub, hash, stored);
    assert SawOutcome(stored.accountId, stored.txHash, tx, Rejected(failure)) in seen;
    assert FailureSeen(seen, Updated(stored, Failed, d));
    MarkSegment(s, seen, hash, Failed, NON_TERMINAL, d, ReturnIt);
  }

  /** Still pending, failed to answer, or not answered yet. */
  lemma NoOutcomeSegment(s: System, f: Frame, r: Reply)
    requires TableJustified(s) && FrameOk(s, f) && f.AwaitOutcome? && (!r.OutcomeRead? || r.outcome.Pending?)
    ensures SegmentOk(s, f, r)
  {
    SeenMore(s, f, s.seen + Noted(f, r));
    QuietSegment(s, s.seen + Noted(f, r), Resume(s.hub, s.store, f, r).1);
  }

  lemma AwaitOutcomeSegment(s: System, f: Frame, r: Reply)
    requires TableJustified(s) && FrameOk(s, f) && f.AwaitOutcome?
    ensures SegmentOk(s, f, r)
  {
    if !r.OutcomeRead? || r.outcome.Pending? {
      NoOutcomeSegment(s, f, r);
    } else if r.outcome.CoreVerified? {
      VerifySegment(s, s.seen + Noted(f, r), f.hash, f.record, f.tx);
    } else {
      FailSegment(s, s.seen + Noted(f, r), f.hash, f.record, f.tx, r.outcome.failure);
    }
  }

  // ---- Store calls and finished calls -------------------------------------------

  lemma PersistingSegment(s: System, f: Frame, r: Reply)
    requires TableJustified(s) && FrameOk(s, f) && f.Persisting?
    ensures SegmentOk(s, f, r)
  {
    var seen := s.seen + Noted(f, r);
    SeenMore(s, f, seen);
    JustifiedStays(s.seen, seen, s.hub, f.hash, s.store.table[f.hash]);
    QuietSegment(s, s.seen + Noted(f, r), Resume(s.hub, s.store, f, r).1);
  }

  lemma ResumedRefreshSegment(s: System, f: Frame, r: Reply)
    requires TableJustified(s) && FrameOk(s, f) && f.Resolved? && (f.next.RefreshWaiting? || f.next.RefreshFetching?)
    ensures SegmentOk(s, f, r)
  {
    var seen := s.seen + Noted(f, r);
    SeenMore(s, f, seen);
    FromWaitingFrame(s.(seen := seen), f.hash, f.next.m, f.record);
    QuietSegment(s, seen, Resume(s.hub, s.store, f, r).1);
  }

  lemma ResolvedSegment(s: System, f: Frame, r: Reply)
    requires TableJustified(s) && FrameOk(s, f) && f.Resolved?
    ensures SegmentOk(s, f, r)
  {
    if f.next.RefreshWaiting? || f.next.RefreshFetching? {
      ResumedRefreshSegment(s, f, r);
    } else {
      SeenMore(s, f, s.seen + Noted(f, r));
      QuietSegment(s, s.seen + Noted(f, r), Resume(s.hub, s.store, f, r).1);
    }
  }

  predicate InRefresh(f: Frame) { f.RefreshLoaded? || f.AwaitFinality? || f.AwaitProof? }
  predicate InStore(f: Frame) { f.Persisting? || f.Resolved? }

  lemma SegmentKeeps(s: System, f: Frame, r: Reply)
    requires TableJustified(s) && FrameOk(s, f)
    ensures SegmentOk(s, f, r)
  {
    if InRefresh(f) { RefreshSegment(s, f, r); }
    else if InStore(f) { StoreSegment(s, f, r); }
    else { OtherSegment(s, f, r); }
  }

  lemma RefreshSegment(s: System, f: Frame, r: Reply)
    requires TableJustified(s) && FrameOk(s, f) && InRefresh(f)
    ensures SegmentOk(s, f, r)
  {
    if f.RefreshLoaded? { RefreshLoadedSegment(s, f, r); }
    else if f.AwaitFinality? { AwaitFinalitySegment(s, f, r); }
    else { AwaitProofSegment(s, f, r); }
  }

  lemma StoreSegment(s: System, f: Frame, r: Reply)
    requires TableJustified(s) && FrameOk(s, f) && InStore(f)
    ensures SegmentOk(s, f, r)
  {
    if f.Persisting? { PersistingSegment(s, f, r); } else { ResolvedSegment(s, f, r); }
  }

  lemma OtherSegment(s: System, f: Frame, r: Reply)
    requires TableJustified(s) && FrameOk(s, f) && !InRefresh(f) && !InStore(f)
    ensures SegmentOk(s, f, r)
  {
    if f.SubmitLoaded? { SubmitLoadedSegment(s, f, r); }
    else if f.AwaitReceipt? { AwaitReceiptSegment(s, f, r); }
    else if f.AwaitParameters? { AwaitParametersSegment(s, f, r); }
    else if f.ConfirmLoaded? { ConfirmLoadedSegment(s, f, r); }
    else if f.AwaitOutcome? { AwaitOutcomeSegment(s, f, r); }
    else {
      SeenMore(s, f, s.seen + Noted(f, r));
      QuietSegment(s, s.seen + Noted(f, r), f);
    }
  }

  // ---- The whole system ---------------------------------------------------------

  lemma NewRecordJustified(s: System, i: PrepareInput)
    ensures Justified(s.seen, s.hub, Keccak(i.m.requestBytes), NewRecord(i))
  {}

  lemma PrepareSettles(s: System, i: PrepareInput)
    requires TableJustified(s)
    ensures Settled(s, s.seen, AfterMark(s.store.CreateOrGetPrepared(NewRecord(i)), Keccak(i.m.requestBytes), ReturnIt))
  {
    NewRecordJustified(s, i);
    var hash := Keccak(i.m.requestBytes);
    if hash in s.store.table { assert Stale(s, hash, s.store.table[hash]); }
  }

  lemma PrepareKeeps(s: System, call: nat, i: PrepareInput)
    requires Safe(s) && call !in s.frames
    ensures Safe(Act(s, Prepare(call, i)))
  {
    if !i.sourceIsTestXrp || i.m.requiredFeeWei < 0 {
      OthersStay(s, call, s.seen, (s.store, Thrown));
    } else {
      PrepareSettles(s, i);
      OthersStay(s, call, s.seen,
                 AfterMark(s.store.CreateOrGetPrepared(NewRecord(i)), Keccak(i.m.requestBytes), ReturnIt));
    }
  }

  /** A newly loaded local is the stored record itself. */
  lemma StartKeeps(s: System, call: nat, f: Frame, hash: ProofId)
    requires Safe(s)
    requires f.Thrown? || (s.store.Get(hash).Some? && FrameOk(s, f))
    ensures Safe(Start(s, call, f))
  {
    var t := Start(s, call, f);
    assert Grew(s, t);
    forall c | c in t.frames ensures FrameOk(t, t.frames[c]) {
      if c in s.frames { FrameStays(s, t, s.frames[c]); } else { FrameStays(s, t, f); }
    }
  }

  lemma LoadedIsStale(s: System, hash: ProofId)
    requires Safe(s) && s.store.Get(hash).Some?
    ensures Stale(s, hash, s.store.Get(hash).value)
  {}

  lemma OthersStay(s: System, call: nat, seen: set<Observation>, result: (StoreState, Frame))
    requires Safe(s) && Settled(s, seen, result)
    ensures Safe(s.(store := result.0, frames := s.frames[call := result.1], seen := seen))
  {
    var (u, t) := (s.(store := result.0, seen := seen),
                   s.(store := result.0, frames := s.frames[call := result.1], seen := seen));
    forall c | c in t.frames ensures FrameOk(t, t.frames[c]) {
      if c == call { FrameStays(u, t, result.1); } else { FrameStays(s, t, s.frames[c]); }
    }
  }

  lemma ContinueKeeps(s: System, call: nat, r: Reply)
    requires Safe(s) && call in s.frames
    ensures Safe(Act(s, Continue(call, r)))
  {
    SegmentKeeps(s, s.frames[call], r);
    OthersStay(s, call, s.seen + Noted(s.frames[call], r), Resume(s.hub, s.store, s.frames[call], r));
  }

  lemma StartsKeepSafe(s: System, a: Action)
    requires Safe(s) && (a.RecordSubmitted? || a.Refresh? || a.ConfirmCoreSubmission?)
    ensures Safe(Act(s, a))
  {
    if s.store.Get(a.hash).Some? {
      LoadedIsStale(s, a.hash);
      var record := s.store.Get(a.hash).value;
      match a
      case RecordSubmitted(call, hash, tx) => StartKeeps(s, call, SubmitLoaded(hash, tx, record), hash);
      case Refresh(call, hash) => StartKeeps(s, call, RefreshLoaded(hash, record), hash);
      case ConfirmCoreSubmission(call, hash, tx) => StartKeeps(s, call, ConfirmLoaded(hash, tx, record), hash);
    } else {
      StartKeeps(s, a.call, Thrown, a.hash);
    }
  }

  lemma ActKeepsSafe(s: System, a: Action)
    requires Safe(s)
    ensures Safe(Act(s, a))
  {
    match a
    case Prepare(call, i) => if call !in s.frames { PrepareKeeps(s, call, i); }
    case RecordSubmitted(call, hash, tx) => StartsKeepSafe(s, a);
    case Refresh(call, hash) => StartsKeepSafe(s, a);
    case ConfirmCoreSubmission(call, hash, tx) => StartsKeepSafe(s, a);
    case Continue(call, r) => if call in s.frames { ContinueKeeps(s, call, r); }
    case Close =>
      forall c | c in s.frames ensures FrameOk(Act(s, a), s.frames[c]) { FrameStays(s, Act(s, a), s.frames[c]); }
  }

  lemma {:induction false} RunKeepsSafe(s: System, actions: seq<Action>)
    requires Safe(s)
    ensures Safe(Run(s, actions))
  {
    if actions != [] {
      RunKeepsSafe(s, actions[..|actions| - 1]);
      ActKeepsSafe(Run(s, actions[..|actions| - 1]), actions[|actions| - 1]);
    }
  }

  lemma {:induction false} RunKeepsHub(s: System, actions: seq<Action>)
    ensures Run(s, actions).hub == s.hub
  {
    if actions != [] { RunKeepsHub(s, actions[..|actions| - 1]); }
  }

  lemma RunSafe(hub: Address, actions: seq<Action>)
    ensures Safe(Run(Fresh(hub), actions)) && Run(Fresh(hub), actions).hub == hub
  {
    RunKeepsSafe(Fresh(hub), actions);
    RunKeepsHub(Fresh(hub), actions);
  }

  // ---- Main results -------------------------------------------------------------

  /** The record is where it was, or one edge further. */
  ghost predicate AtMostOneEdge(before: Record, after: Record) {
    after == before || (Edge(before.status, after.status) && Advanced(before, after))
  }

  lemma OneEdgeForAll(s: System, t: System, hash: ProofId)
    requires OneEdgeOrNone(s, t) && hash in s.store.table
    ensures hash in t.store.table && AtMostOneEdge(s.store.table[hash], t.store.table[hash])
  {
    if t.store.table != s.store.table { var h :| OneEdge(s, t, h); }
  }

  lemma ContinueOneEdge(s: System, call: nat, r: Reply, hash: ProofId)
    requires Safe(s) && call in s.frames && hash in s.store.table
    ensures var t := Act(s, Continue(call, r)).store.table; hash in t && AtMostOneEdge(s.store.table[hash], t[hash])
  {
    var f := s.frames[call];
    SegmentKeeps(s, f, r);
    OneEdgeForAll(s, s.(store := Resume(s.hub, s.store, f, r).0, seen := s.seen + Noted(f, r)), hash);
  }

  lemma ActOneEdge(s: System, a: Action, hash: ProofId)
    requires Safe(s) && hash in s.store.table
    ensures var t := Act(s, a).store.table;
      hash in t && AtMostOneEdge(s.store.table[hash], t[hash])
  {
    if a.Continue? && a.call in s.frames { ContinueOneEdge(s, a.call, a.reply, hash); }
  }

  /** Whatever the interleaving, one action moves a stored record along at most one edge of the graph: FAILED is
      reached from PROOF_READY only, although the store alone would fail any record that is not terminal. */
  lemma OneActionOneEdge(hub: Address, actions: seq<Action>, a: Action, hash: ProofId)
    requires hash in Run(Fresh(hub), actions).store.table
    ensures var (s, t) := (Run(Fresh(hub), actions).store.table, Act(Run(Fresh(hub), actions), a).store.table);
      && hash in t
      && (t[hash] == s[hash] || Edge(s[hash].status, t[hash].status))
      && (t[hash].status.Failed? && t[hash] != s[hash] ==> s[hash].status.ProofReady?)
  {
    RunSafe(hub, actions);
    ActOneEdge(Run(Fresh(hub), actions), a, hash);
  }

  lemma {:induction false} RunAdvances(s: System, actions: seq<Action>, hash: ProofId)
    requires Safe(s) && hash in s.store.table
    ensures hash in Run(s, actions).store.table && Advanced(s.store.table[hash], Run(s, actions).store.table[hash])
  {
    if actions != [] {
      var init := actions[..|actions| - 1];
      RunAdvances(s, init, hash);
      RunKeepsSafe(s, init);
      AdvanceFurther(s.store.table[hash], Run(s, init), actions[|actions| - 1], hash);
    }
  }

  /** Over any continuation of any run a record keeps everything that was prepared, its voting round and request
      transaction once set, and its terminal status once reached; its status only advances. */
  lemma RecordsOnlyAdvance(hub: Address, before: seq<Action>, after: seq<Action>, hash: ProofId)
    requires hash in Run(Fresh(hub), before).store.table
    ensures var (s, t) := (Run(Fresh(hub), before), Run(Run(Fresh(hub), before), after));
      hash in t.store.table && Advanced(s.store.table[hash], t.store.table[hash])
  {
    RunSafe(hub, before);
    RunAdvances(Run(Fresh(hub), before), after, hash);
  }

  lemma AdvanceFurther(r: Record, s: System, a: Action, hash: ProofId)
    requires Safe(s) && hash in s.store.table && Advanced(r, s.store.table[hash])
    ensures hash in Act(s, a).store.table && Advanced(r, Act(s, a).store.table[hash])
  {
    ActOneEdge(s, a, hash);
    AdvancedTransitive(r, s.store.table[hash], Act(s, a).store.table[hash]);
  }

  /** The evidence behind every stored status. */
  lemma StatusesAreJustified(hub: Address, actions: seq<Action>, hash: ProofId)
    requires hash in Run(Fresh(hub), actions).store.table
    ensures Justified(Run(Fresh(hub), actions).seen, hub, hash, Run(Fresh(hub), actions).store.table[hash])
  {
    RunSafe(hub, actions);
  }

  /** `refresh` has returned a proof only after the relay reported the record's own voting round as finalized, and
      it is the proof the DA layer answered for the record's own request bytes and that round. */
  lemma ProofsNeedFinality(hub: Address, actions: seq<Action>, call: nat)
    requires var s := Run(Fresh(hub), actions); call in s.frames && s.frames[call].ReturnedProof?
    ensures var s := Run(Fresh(hub), actions);
      var (hash, record) := (s.frames[call].hash, s.frames[call].record);
      && hash in s.store.table && record.votingRound.Some? && s.store.table[hash].votingRound == record.votingRound
      && SawFinalized(record.votingRound.value) in s.seen
      && record.requestBytes.Some? && s.store.table[hash].requestBytes == record.requestBytes
      && SawProof(record.requestBytes.value, record.votingRound.value, s.frames[call].proof) in s.seen
  {
    RunSafe(hub, actions);
    assert FrameOk(Run(Fresh(hub), actions), Run(Fresh(hub), actions).frames[call]);
  }
}
