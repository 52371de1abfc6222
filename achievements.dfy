/** `checkAchievements`: which achievements one scoring event unlocks for a player. */
module Achievements {

  /** The achievement identifiers (names, descriptions and icons are display data). */
  datatype Achievement = FirstCorrect | HighScorer | Streak3 | Streak5

  predicate NoDup<T(==)>(s: seq<T>)
  {
    forall i, j :: 0 <= i < j < |s| ==> s[i] != s[j]
  }

  /**
   * The achievements newly unlocked by a correct guess worth `score` points with
   * the guesser's streak now `streak`, given the list `held` already stored.
   */
  function Unlocked(held: seq<Achievement>, score: int, streak: int): seq<Achievement>
  {
    (if held == [] then [FirstCorrect] else [])
    + (if score >= 100 && HighScorer !in held then [HighScorer] else [])
    + (if streak == 3 && Streak3 !in held then [Streak3] else [])
    + (if streak == 5 && Streak5 !in held then [Streak5] else [])
  }

  /**
   * The first correct guess unlocks FirstCorrect, a guess worth 100 points
   * HighScorer, a streak of exactly 3 or 5 Streak3 or Streak5; each only if
   * not already held, and nothing else is unlocked.
   */
  lemma UnlockedExactly(held: seq<Achievement>, score: int, streak: int)
    ensures var r := Unlocked(held, score, streak);
            && (FirstCorrect in r <==> held == [])
            && (HighScorer in r <==> score >= 100 && HighScorer !in held)
            && (Streak3 in r <==> streak == 3 && Streak3 !in held)
            && (Streak5 in r <==> streak == 5 && Streak5 !in held)
            && NoDup(r)
  {
  }

  /** The list stored after the check: the new achievements after the held ones. */
  function AfterCheck(held: seq<Achievement>, score: int, streak: int): (r: seq<Achievement>)
  {
    var n := Unlocked(held, score, streak);
    if |n| > 0 then held + n else held
  }

  /**
   * The stored list only grows, and it never holds an achievement twice:
   * each achievement is unlocked at most once per player.
   */
  lemma AfterCheckGrowsWithoutRepeats(held: seq<Achievement>, score: int, streak: int)
    requires NoDup(held)
    ensures held <= AfterCheck(held, score, streak)
    ensures NoDup(AfterCheck(held, score, streak))
  {
    var n := Unlocked(held, score, streak);
    var r := held + n;
    UnlockedExactly(held, score, streak);
    forall i, j | 0 <= i < j < |r| ensures r[i] != r[j] {
      if j >= |held| && i < |held| {
        assert r[j] in n;
        assert r[i] in held;
      }
    }
  }

  /** Once an achievement is held, no later check unlocks it again. */
  lemma HeldNeverUnlockedAgain(held: seq<Achievement>, a: Achievement, score: int, streak: int)
    requires a in held
    ensures a !in Unlocked(held, score, streak)
  {
    UnlockedExactly(held, score, streak);
  }
}
