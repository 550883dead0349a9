/** Score bookkeeping: lives, score, level and the two running maxima. */
module Stats {
  import opened GameSettings

  function Max(a: int, b: int): (m: int)
    ensures m >= a && m >= b && (m == a || m == b)
  {
    if b > a then b else a
  }

  class GameStats {
    /** The best score of this session. */
    var maxScore: int
    /** The best score ever, as loaded from and saved to the scores file. */
    var hiScore: int
    var shipsLeft: int
    var score: int
    var level: int

    /** The current score is bounded by both maxima. */
    predicate ScoreWithinMaxima()
      reads this
    {
      score <= maxScore && score <= hiScore
    }

    /** savedHiScore is the high score the scores file yields: 0 when the
        file is missing or has no hi_score entry. A file that exists is
        always parsed, since the size test is made on the path object and
        not on the file's contents. */
    constructor (s: Settings, savedHiScore: int)
      ensures maxScore == 0 && hiScore == savedHiScore
      ensures shipsLeft == s.startingShipCount && score == 0 && level == 1
    {
      maxScore := 0;
      hiScore := savedHiScore;
      new;
      ResetStats(s);
    }

    /** A new game: full lives, no score, level 1; the maxima are kept. */
    method ResetStats(s: Settings)
      modifies this`shipsLeft, this`score, this`level
      ensures shipsLeft == s.startingShipCount && score == 0 && level == 1
      ensures maxScore == old(maxScore) && hiScore == old(hiScore)
    {
      shipsLeft := s.startingShipCount;
      score := 0;
      level := 1;
    }

    /** Scores the hits, then raises the maxima to the new score if needed. */
    method Update<K, V>(collisions: map<K, V>, s: Settings)
      modifies this`score, this`maxScore, this`hiScore
      ensures score == old(score) + s.alienPoints * |collisions|
      ensures maxScore == Max(old(maxScore), score) && hiScore == Max(old(hiScore), score)
      ensures maxScore >= old(maxScore) && hiScore >= old(hiScore)
      ensures ScoreWithinMaxima()
    {
      UpdateScore(collisions, s.alienPoints);
      UpdateMaxScore();
      UpdateHiScore();
    }

    /** alienPoints once per entry of the collision mapping. */
    method UpdateScore<K, V>(collisions: map<K, V>, alienPoints: int)
      modifies this`score
      ensures score == old(score) + alienPoints * |collisions|
    {
      var remaining := collisions.Keys;
      while remaining != {}
        invariant remaining <= collisions.Keys
        invariant score == old(score) + alienPoints * (|collisions.Keys| - |remaining|)
        decreases |remaining|
      {
        var alien :| alien in remaining;
        score := score + alienPoints;
        remaining := remaining - {alien};
      }
    }

    method UpdateMaxScore()
      modifies this`maxScore
      ensures maxScore == Max(old(maxScore), score)
    {
      if score > maxScore {
        maxScore := score;
      }
    }

    method UpdateHiScore()
      modifies this`hiScore
      ensures hiScore == Max(old(hiScore), score)
    {
      if score > hiScore {
        hiScore := score;
      }
    }

    /** One level up; nothing else in the stats changes. */
    method UpdateLevel()
      modifies this`level
      ensures level == old(level) + 1
      ensures old(ScoreWithinMaxima()) ==> ScoreWithinMaxima()
    {
      level := level + 1;
    }
  }
}
