/** voting-round.ts: the FDC voting round a request block falls into. */
module VotingRound {
  import opened Rounding

  datatype RoundResult = Invalid | Round(id: nat)

  function VotingRoundForRequestBlock(blockTimestamp: int, first: int, duration: int): RoundResult {
    if duration <= 0 then Invalid
    else if blockTimestamp < first then Invalid
    else Round((blockTimestamp - first) / duration)
  }

  predicate InRound(blockTimestamp: int, first: int, duration: int, round: nat) {
    duration > 0 && first + round * duration <= blockTimestamp < first + (round + 1) * duration
  }

  /** The result is the one round whose half-open window contains the block, and there is none exactly
      when the schedule is invalid or has not started. */
  lemma RoundContainsBlock(t: int, first: int, duration: int, round: nat)
    ensures VotingRoundForRequestBlock(t, first, duration) == Round(round) <==> InRound(t, first, duration, round)
    ensures VotingRoundForRequestBlock(t, first, duration) == Invalid <==> duration <= 0 || t < first
  {
    if duration > 0 && t >= first {
      FloorIff(t - first, duration, round);
      FloorIff(t - first, duration, round + 1);
    } else if duration > 0 {
      MulMono(0, round, duration);
    }
  }
}
