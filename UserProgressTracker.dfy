/** The player's persistent progress: a level capped at 5 and a high score
    that only rises, both mirrored in a key-value store of integers. */
module Progress {

  const MaxLevel: int := 5
  const LevelKey: string := "PlayerLevel"
  const HighScoreKey: string := "PlayerHighScore"

  /** The persistent key-value store of integers. */
  type Store = map<string, int>

  /** The stored value under `key`, or `default` when none is stored. */
  function GetInt(store: Store, key: string, default: int): int
  {
    if key in store then store[key] else default
  }

  datatype UserData = UserData(playerLevel: int, playerHighScore: int)

  /** The level after one level-up. */
  function NextLevel(level: int): int
  {
    if level < MaxLevel then level + 1 else level
  }

  /** The level after `n` level-ups. */
  function LevelAfter(level: int, n: nat): int
    decreases n
  {
    if n == 0 then level else LevelAfter(NextLevel(level), n - 1)
  }

  /** Level-ups stop at the cap: a level below it rises by one per level-up
      until it reaches 5, and a level at or above the cap stays put. */
  lemma {:induction false} LevelAfterCapped(level: int, n: nat)
    ensures level >= MaxLevel ==> LevelAfter(level, n) == level
    ensures level < MaxLevel ==>
      LevelAfter(level, n) == if level + n < MaxLevel then level + n else MaxLevel
    decreases n
  {
    if n > 0 {
      LevelAfterCapped(NextLevel(level), n - 1);
    }
  }

  /** The high score after offering `scores` in order. */
  function HighScoreAfter(high: int, scores: seq<int>): int
    decreases |scores|
  {
    if scores == [] then high
    else HighScoreAfter(if scores[0] > high then scores[0] else high, scores[1..])
  }

  /** The high score after a run of saves is the largest of the old high
      score and every offered score, and it never decreases. */
  lemma {:induction false} HighScoreIsMaximum(high: int, scores: seq<int>)
    ensures HighScoreAfter(high, scores) >= high
    ensures forall i :: 0 <= i < |scores| ==> HighScoreAfter(high, scores) >= scores[i]
    ensures HighScoreAfter(high, scores) == high || HighScoreAfter(high, scores) in scores
    decreases |scores|
  {
    if scores != [] {
      var next := if scores[0] > high then scores[0] else high;
      HighScoreIsMaximum(next, scores[1..]);
      forall i | 0 < i < |scores| ensures HighScoreAfter(high, scores) >= scores[i] {
        assert scores[i] == scores[1..][i - 1];
      }
      if HighScoreAfter(next, scores[1..]) in scores[1..] {
        var j :| 0 <= j < |scores[1..]| && scores[1..][j] == HighScoreAfter(next, scores[1..]);
        assert scores[j + 1] == HighScoreAfter(high, scores);
      }
    }
  }

  class UserProgressTracker {
    var userData: UserData
    var prefs: Store

    /** `InitializePlayerData` on creation: level and high score are read
        from the store, with defaults 1 and 0. */
    constructor (prefs: Store)
      ensures this.prefs == prefs
      ensures userData == UserData(GetInt(prefs, LevelKey, 1), GetInt(prefs, HighScoreKey, 0))
    {
      this.prefs := prefs;
      userData := UserData(GetInt(prefs, LevelKey, 1), GetInt(prefs, HighScoreKey, 0));
    }

    /** Reloads the level and high score from the store. */
    method InitializePlayerData()
      modifies this`userData
      ensures userData.playerLevel == (if LevelKey in prefs then prefs[LevelKey] else 1)
      ensures userData.playerHighScore == (if HighScoreKey in prefs then prefs[HighScoreKey] else 0)
    {
      userData := UserData(GetInt(prefs, LevelKey, 1), GetInt(prefs, HighScoreKey, 0));
    }

    function GetPlayerLevel(): (level: int)
      reads this
      ensures level == userData.playerLevel
    {
      userData.playerLevel
    }

    function GetPlayerHighScore(): (high: int)
      reads this
      ensures high == userData.playerHighScore
    {
      userData.playerHighScore
    }

    /** Writes the current level to the store. */
    method SavePlayerLevel()
      modifies this`prefs
      ensures prefs == old(prefs)[LevelKey := userData.playerLevel]
    {
      prefs := prefs[LevelKey := userData.playerLevel];
    }

    /** Keeps `score` as the high score, and stores it, only when it beats
        the current one. */
    method SavePlayerScore(score: int)
      modifies this
      ensures userData.playerLevel == old(userData.playerLevel)
      ensures userData.playerHighScore == HighScoreAfter(old(userData.playerHighScore), [score])
      ensures score > old(userData.playerHighScore) ==> prefs == old(prefs)[HighScoreKey := score]
      ensures score <= old(userData.playerHighScore) ==> prefs == old(prefs)
    {
      if score > userData.playerHighScore {
        userData := userData.(playerHighScore := score);
        prefs := prefs[HighScoreKey := score];
      }
    }

    /** Raises the level while it is below the cap, then stores it
        whether or not it changed. */
    method IncrementPlayerLevel()
      modifies this
      ensures userData == old(userData).(playerLevel := LevelAfter(old(userData.playerLevel), 1))
      ensures prefs == old(prefs)[LevelKey := userData.playerLevel]
    {
      if userData.playerLevel < MaxLevel {
        userData := userData.(playerLevel := userData.playerLevel + 1);
      }
      SavePlayerLevel();
    }
  }

  /** A returning player stored at level 4 with high score 50: two level-ups
      reach the cap of 5, and saving 30 then 70 leaves a high score of 70,
      with both values written back to the store. */
  method ReturningPlayer() returns (level: int, high: int, stored: Store)
    ensures level == 5 && high == 70
    ensures stored == map[LevelKey := 5, HighScoreKey := 70]
  {
    var tracker := new UserProgressTracker(map[LevelKey := 4, HighScoreKey := 50]);
    tracker.IncrementPlayerLevel();
    tracker.IncrementPlayerLevel();
    tracker.SavePlayerScore(30);
    tracker.SavePlayerScore(70);
    level := tracker.GetPlayerLevel();
    high := tracker.GetPlayerHighScore();
    stored := tracker.prefs;
  }
}
