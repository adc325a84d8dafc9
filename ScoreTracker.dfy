/** The player's score: a fixed reward per matched pair, doubled once two
    matches have been counted on the streak, and a penalty per mismatch that
    applies only while the score is positive. */
module Score {

  const MatchScore: int := 10
  const MismatchPenalty: int := 2

  /** The tracker's fields as one value. */
  datatype ScoreState = ScoreState(score: int, streak: int, multiplier: int)

  const Fresh: ScoreState := ScoreState(0, 0, 1)

  /** The state after a matched pair. */
  function AfterMatch(s: ScoreState): ScoreState
  {
    var streak := s.streak + 1;
    var multiplier := if streak >= 2 then 2 else s.multiplier;
    ScoreState(s.score + MatchScore * multiplier, streak, multiplier)
  }

  /** The state after a mismatched pair. */
  function AfterMismatch(s: ScoreState): ScoreState
  {
    ScoreState(if s.score > 0 then s.score - MismatchPenalty else s.score,
               if s.streak > 0 then s.streak - 1 else s.streak,
               s.multiplier)
  }

  /** A history of pair outcomes, `true` for a match, applied in order. */
  function Replay(s: ScoreState, outcomes: seq<bool>): ScoreState
    decreases |outcomes|
  {
    if outcomes == [] then s
    else Replay(if outcomes[0] then AfterMatch(s) else AfterMismatch(s), outcomes[1..])
  }

  /** What every reachable state satisfies: a non-negative streak and a
      multiplier of 1 or 2. */
  ghost predicate Sane(s: ScoreState) {
    s.streak >= 0 && (s.multiplier == 1 || s.multiplier == 2)
  }

  lemma {:induction false} ReplayStaysSane(s: ScoreState, outcomes: seq<bool>)
    requires Sane(s)
    ensures Sane(Replay(s, outcomes))
    decreases |outcomes|
  {
    if outcomes != [] {
      ReplayStaysSane(if outcomes[0] then AfterMatch(s) else AfterMismatch(s), outcomes[1..]);
    }
  }

  /** Nothing resets the multiplier: it never decreases. */
  lemma {:induction false} MultiplierNeverDrops(s: ScoreState, outcomes: seq<bool>)
    requires Sane(s)
    ensures Replay(s, outcomes).multiplier >= s.multiplier
    decreases |outcomes|
  {
    if outcomes != [] {
      var next := if outcomes[0] then AfterMatch(s) else AfterMismatch(s);
      MultiplierNeverDrops(next, outcomes[1..]);
    }
  }

  /** A match raises the streak by exactly one and adds 10 at the base
      multiplier or 20 at the doubled one; the doubled multiplier is in
      force from the second match of a streak on. */
  lemma MatchStep(s: ScoreState)
    requires Sane(s)
    ensures AfterMatch(s).streak == s.streak + 1
    ensures AfterMatch(s).score - s.score == 10 * AfterMatch(s).multiplier
    ensures AfterMatch(s).score - s.score == 10 || AfterMatch(s).score - s.score == 20
    ensures s.streak >= 1 ==> AfterMatch(s).multiplier == 2
  {
  }

  /** A mismatch takes 2 off a positive score and nothing off any other,
      lowers a positive streak by one and never takes it below zero. */
  lemma MismatchStep(s: ScoreState)
    requires Sane(s)
    ensures AfterMismatch(s).streak == if s.streak > 0 then s.streak - 1 else 0
    ensures s.score > 0 ==> AfterMismatch(s).score == s.score - 2
    ensures s.score <= 0 ==> AfterMismatch(s).score == s.score
    ensures AfterMismatch(s).multiplier == s.multiplier
  {
  }

  /** Two matches in a row from a sane state always leave the multiplier at 2. */
  lemma TwoMatchesDouble(s: ScoreState)
    requires Sane(s)
    ensures AfterMatch(AfterMatch(s)).multiplier == 2
  {
  }

  /** From a fresh tracker: the first match gives 10, the second 20. */
  lemma FreshMatchesScore()
    ensures AfterMatch(Fresh).score == 10
    ensures AfterMatch(AfterMatch(Fresh)).score == 30
  {
  }

  /** The penalty takes a score of 1 below zero and leaves a non-positive
      score as it is. */
  lemma MismatchPenaltyEdges(s: ScoreState)
    ensures s.score == 1 ==> AfterMismatch(s).score == -1
    ensures s.score <= 0 ==> AfterMismatch(s).score == s.score
  {
  }

  class ScoreTracker {
    var score: int
    var streakCount: int
    var bonusMultiplier: int

    ghost function State(): ScoreState
      reads this
    {
      ScoreState(score, streakCount, bonusMultiplier)
    }

    constructor ()
      ensures State() == Fresh
    {
      score := 0;
      streakCount := 0;
      bonusMultiplier := 1;
    }

    /** The `Score` getter. */
    function Score(): (s: int)
      reads this
      ensures s == State().score
    {
      score
    }

    /** The `Score` setter: the streak and multiplier are left alone. */
    method SetScore(value: int)
      modifies this`score
      ensures State() == old(State()).(score := value)
    {
      score := value;
    }

    /** Counts a match and returns the score it emits. */
    method IncrementMatchScore() returns (emitted: int)
      modifies this
      ensures State() == AfterMatch(old(State()))
      ensures emitted == score
    {
      streakCount := streakCount + 1;
      if streakCount >= 2 {
        bonusMultiplier := 2;
      }
      score := score + MatchScore * bonusMultiplier;
      emitted := score;
    }

    /** Counts a mismatch and returns the score it emits. */
    method DecreaseScore() returns (emitted: int)
      modifies this
      ensures State() == AfterMismatch(old(State()))
      ensures emitted == score
    {
      if streakCount > 0 {
        streakCount := streakCount - 1;
      }
      if score > 0 {
        score := score - MismatchPenalty;
      }
      emitted := score;
    }
  }

  /** A fresh tracker, two matches, then a mismatch: the emitted scores are
      10, 30 and 28. */
  method MatchMatchMismatch() returns (first: int, second: int, third: int)
    ensures first == 10 && second == 30 && third == 28
  {
    var tracker := new ScoreTracker();
    first := tracker.IncrementMatchScore();
    second := tracker.IncrementMatchScore();
    third := tracker.DecreaseScore();
  }
}
