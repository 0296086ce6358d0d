/**
 * The user record of `src/models.py`: answer counters, the list of missed
 * track ids and four Elo-style ratings, with the rating update
 * `round(old + 32 * (outcome - 0.5))`, the accuracy ratio and the level tiers.
 */
module Models {
  import opened Prelude
  import opened Seqs

  /** The initial value of every rating column. */
  const DefaultElo: int := 1200

  /** The update factor `K` of `update_elo`. */
  const K: int := 32

  // ---------------------------------------------------------------------
  // Python's round() on exact reals
  // ---------------------------------------------------------------------

  /** Python's `round(x)`: the nearest integer, ties going to the even one. */
  function RoundHalfEven(x: real): (r: int)
    ensures x - r as real <= 0.5 && r as real - x <= 0.5
    ensures (x - r as real == 0.5 || r as real - x == 0.5) ==> r % 2 == 0
  {
    var f := x.Floor;
    var frac := x - f as real;
    if frac < 0.5 then f
    else if frac > 0.5 then f + 1
    else if f % 2 == 0 then f
    else f + 1
  }

  /** No integer is strictly closer to `x` than `round(x)`. */
  lemma RoundNearest(x: real, n: int)
    ensures var d := x - RoundHalfEven(x) as real;
            var e := x - n as real;
            (if d < 0.0 then -d else d) <= (if e < 0.0 then -e else e)
  {
    var r := RoundHalfEven(x);
    if n < r {
      assert n as real <= r as real - 1.0;
    } else if n > r {
      assert n as real >= r as real + 1.0;
    }
  }

  lemma RoundOfInteger(n: int)
    ensures RoundHalfEven(n as real) == n
  {
  }

  lemma RoundMonotone(x: real, y: real)
    requires x <= y
    ensures RoundHalfEven(x) <= RoundHalfEven(y)
  {
  }

  // ---------------------------------------------------------------------
  // The rating update
  // ---------------------------------------------------------------------

  /** The new value of the selected rating after an outcome in [0, 1]. */
  function NewElo(elo: int, outcome: real): int
  {
    RoundHalfEven(elo as real + K as real * (outcome - 0.5))
  }

  /** A full success adds 16, a full failure takes 16 away, a half outcome changes nothing. */
  lemma NewEloEndpoints(elo: int)
    ensures NewElo(elo, 1.0) == elo + 16
    ensures NewElo(elo, 0.0) == elo - 16
    ensures NewElo(elo, 0.5) == elo
  {
    RoundOfInteger(elo + 16);
    RoundOfInteger(elo - 16);
    RoundOfInteger(elo);
  }

  /** A better outcome never yields a lower rating. */
  lemma NewEloMonotone(elo: int, o1: real, o2: real)
    requires o1 <= o2
    ensures NewElo(elo, o1) <= NewElo(elo, o2)
  {
    RoundMonotone(elo as real + K as real * (o1 - 0.5), elo as real + K as real * (o2 - 0.5));
  }

  /** One update moves the rating by at most 16 either way. */
  lemma NewEloBounded(elo: int, outcome: real)
    requires 0.0 <= outcome <= 1.0
    ensures elo - 16 <= NewElo(elo, outcome) <= elo + 16
  {
    NewEloEndpoints(elo);
    NewEloMonotone(elo, 0.0, outcome);
    NewEloMonotone(elo, outcome, 1.0);
  }

  /** The rating after `n` failures in a row. */
  function Losses(elo: int, n: nat): int
  {
    if n == 0 then elo else NewElo(Losses(elo, n - 1), 0.0)
  }

  /** There is no floor: every failure takes 16 points, without bound. */
  lemma {:induction false} LossesUnbounded(elo: int, n: nat)
    ensures Losses(elo, n) == elo - 16 * n
  {
    if n > 0 {
      LossesUnbounded(elo, n - 1);
      NewEloEndpoints(Losses(elo, n - 1));
    }
  }

  // ---------------------------------------------------------------------
  // Accuracy and level
  // ---------------------------------------------------------------------

  /** `get_accuracy`: 0 before any attempt, otherwise correct / attempts. */
  function AccuracyOf(correct: int, attempts: int): (acc: real)
    ensures attempts == 0 ==> acc == 0.0
    ensures attempts != 0 ==> acc * attempts as real == correct as real
    ensures 0 <= correct <= attempts ==> 0.0 <= acc <= 1.0
  {
    if attempts == 0 then 0.0 else correct as real / attempts as real
  }

  /** `get_level`: the three accuracy bands. */
  function LevelOf(acc: real): (level: string)
    ensures level == "beginner" || level == "intermediate" || level == "advanced"
  {
    if acc < 0.3 then "beginner"
    else if acc < 0.8 then "intermediate"
    else "advanced"
  }

  /** The position of a level name in beginner < intermediate < advanced. */
  function LevelRank(level: string): nat
  {
    if level == "beginner" then 0 else if level == "intermediate" then 1 else 2
  }

  /** The bands are exactly [0, 0.3), [0.3, 0.8) and [0.8, ...). */
  lemma LevelBands(acc: real)
    ensures LevelOf(acc) == "beginner" <==> acc < 0.3
    ensures LevelOf(acc) == "intermediate" <==> 0.3 <= acc < 0.8
    ensures LevelOf(acc) == "advanced" <==> 0.8 <= acc
  {
  }

  /** Higher accuracy never gives a lower level. */
  lemma LevelMonotone(a: real, b: real)
    requires a <= b
    ensures LevelRank(LevelOf(a)) <= LevelRank(LevelOf(b))
  {
  }

  // ---------------------------------------------------------------------
  // The user record
  // ---------------------------------------------------------------------

  /** Whether an (approach, mode) pair selects the given rating column. */
  predicate Selects(approach: string, mode: string, a: string, m: string)
  {
    approach == a && mode == m
  }

  /** The two approach names differ, and so do the two mode names. */
  lemma ColumnNamesDistinct()
    ensures "random" != "personalized" && "guess" != "rank"
  {
    assert "random"[0] != "personalized"[0];
    assert "guess"[0] != "rank"[0];
  }

  class User {
    var totalCorrect: int
    var totalAttempts: int
    /** The decoded `missed_songs` JSON list of track ids. */
    var missedSongs: seq<string>
    var randomGuessElo: int
    var personalizedGuessElo: int
    var randomRankElo: int
    var personalizedRankElo: int

    /** A fresh row with the column defaults. */
    constructor ()
      ensures totalCorrect == 0 && totalAttempts == 0 && missedSongs == []
      ensures randomGuessElo == DefaultElo && personalizedGuessElo == DefaultElo
      ensures randomRankElo == DefaultElo && personalizedRankElo == DefaultElo
      ensures Valid()
    {
      totalCorrect := 0;
      totalAttempts := 0;
      missedSongs := [];
      randomGuessElo := DefaultElo;
      personalizedGuessElo := DefaultElo;
      randomRankElo := DefaultElo;
      personalizedRankElo := DefaultElo;
    }

    /** What every handler keeps true: no more correct answers than
        attempts, and no track id listed twice among the missed. */
    ghost predicate Valid()
      reads this
    {
      0 <= totalCorrect <= totalAttempts && NoDup(missedSongs)
    }

    function Accuracy(): (acc: real)
      reads this
      ensures Valid() ==> 0.0 <= acc <= 1.0
      ensures totalAttempts == 0 ==> acc == 0.0
    {
      AccuracyOf(totalCorrect, totalAttempts)
    }

    function Level(): string
      reads this
    {
      LevelOf(Accuracy())
    }

    /** `update_elo`: exactly the column named by (approach, mode) takes
        the new value; an unknown pair changes nothing. */
    method UpdateElo(approach: string, mode: string, outcome: real)
      modifies this`randomGuessElo, this`personalizedGuessElo, this`randomRankElo, this`personalizedRankElo
      ensures randomGuessElo == if Selects(approach, mode, "random", "guess")
                                then NewElo(old(randomGuessElo), outcome) else old(randomGuessElo)
      ensures personalizedGuessElo == if Selects(approach, mode, "personalized", "guess")
                                      then NewElo(old(personalizedGuessElo), outcome) else old(personalizedGuessElo)
      ensures randomRankElo == if Selects(approach, mode, "random", "rank")
                               then NewElo(old(randomRankElo), outcome) else old(randomRankElo)
      ensures personalizedRankElo == if Selects(approach, mode, "personalized", "rank")
                                     then NewElo(old(personalizedRankElo), outcome) else old(personalizedRankElo)
    {
      if approach == "random" && mode == "guess" {
        randomGuessElo := NewElo(randomGuessElo, outcome);
      } else if approach == "personalized" && mode == "guess" {
        personalizedGuessElo := NewElo(personalizedGuessElo, outcome);
      } else if approach == "random" && mode == "rank" {
        randomRankElo := NewElo(randomRankElo, outcome);
      } else if approach == "personalized" && mode == "rank" {
        personalizedRankElo := NewElo(personalizedRankElo, outcome);
      }
    }
  }
}
