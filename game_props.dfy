/**
 * Properties of the room state machine in module Game: what each handler
 * and callback guarantees, the invariant it keeps, and the places where the
 * source does not keep what its design states.
 */
module GameProps {
  import opened Wrappers
  import opened Text
  import opened Scoring
  import opened Achievements
  import opened Shuffle
  import opened Players
  import opened Game

  // ---------------------------------------------------------------- shared steps

  /** `endGame` finishes the room and cancels its round timer. */
  lemma EndGameFinishes(s: RoomState)
    requires Inv(s)
    ensures Inv(EndGame(s)) && TurnPointerLive(EndGame(s))
    ensures EndGame(s).status == Finished
    ensures s.gameTimer.Some? ==> s.gameTimer.value !in EndGame(s).liveTimers
  {
  }

  /** The final leaderboard ranks every player once, highest total first. */
  lemma LeaderboardRanksPlayers(s: RoomState)
    requires Keyed(s)
    ensures SortedDesc(Leaderboard(s)) && |Leaderboard(s)| == |s.players|
    ensures multiset(Leaderboard(s)) == multiset(LeaderboardEntries(s))
    ensures forall i :: 0 <= i < |s.players| ==>
              LeaderboardEntries(s)[i].name == s.players[i].name
              && LeaderboardEntries(s)[i].score == s.scores[s.players[i].id]
  {
    SortDescRanks(LeaderboardEntries(s));
    forall i | 0 <= i < |s.players| ensures s.players[i].id in s.scores {
      assert s.players[i].id in Ids(s.players);
    }
  }

  /** `startNewRound` keeps the invariant and leaves the pointer on a word-setter while playing. */
  lemma StartNewRoundKeeps(s: RoomState, order: seq<ConnId>)
    requires Inv(s) && IsPerm(order, IdSeq(s.players))
    requires s.currentPlayerIndex == 0 || s.currentPlayerIndex < |s.turnOrder|
    ensures Inv(StartNewRound(s, order)) && TurnPointerLive(StartNewRound(s, order))
  {
    PermMembers(order, s.players);
  }

  /**
   * `startNewRound` with two players or more clears the word and the guesses,
   * keeps the round and the status, and at the head of the turn order starts
   * from the fresh shuffle with every round score at zero; with fewer it
   * sends the room back to waiting.
   */
  lemma StartNewRoundShape(s: RoomState, order: seq<ConnId>)
    requires OrderMembers(s) && IsPerm(order, IdSeq(s.players))
    requires s.currentPlayerIndex == 0 || s.currentPlayerIndex < |s.turnOrder|
    ensures StartNewRound(s, order).currentRound == s.currentRound
    ensures StartNewRound(s, order).currentPlayerIndex == s.currentPlayerIndex
    ensures |s.players| < 2 ==> StartNewRound(s, order).status == Waiting
    ensures |s.players| >= 2 ==>
              && StartNewRound(s, order).status == s.status
              && StartNewRound(s, order).currentWord == ""
              && StartNewRound(s, order).correctGuesses == []
              && StartNewRound(s, order).turnOrder == (if s.currentPlayerIndex == 0 then order else s.turnOrder)
              && StartNewRound(s, order).roundScores ==
                   (if s.currentPlayerIndex == 0 then ZeroScores(s.players) else s.roundScores)
  {
  }

  /** The invariant depends only on the players, their tables, the turn order and the timers. */
  lemma InvFrame(s: RoomState, r: RoomState)
    requires Inv(s)
    requires r.players == s.players && r.turnOrder == s.turnOrder
    requires r.scores == s.scores && r.roundScores == s.roundScores
    requires r.achievements == s.achievements && r.streaks == s.streaks
    requires r.liveTimers == s.liveTimers && r.nextTimer == s.nextTimer
    ensures Inv(r)
  {
  }

  lemma NextTurnKeepsWithinRound(s: RoomState, order: seq<ConnId>)
    requires Inv(s) && IsPerm(order, IdSeq(s.players))
    requires |s.turnOrder| >= 2 && s.currentPlayerIndex + 1 < |s.turnOrder|
    ensures Inv(NextTurn(s, order)) && TurnPointerLive(NextTurn(s, order))
  {
    var s1 := s.(currentPlayerIndex := s.currentPlayerIndex + 1);
    InvFrame(s, s1);
    StartNewRoundKeeps(s1, order);
    assert NextTurn(s, order) == StartNewRound(s1, order);
  }

  lemma NextTurnKeepsAtWrap(s: RoomState, order: seq<ConnId>)
    requires Inv(s) && IsPerm(order, IdSeq(s.players))
    requires |s.turnOrder| >= 2 && s.currentPlayerIndex + 1 >= |s.turnOrder|
    ensures Inv(NextTurn(s, order)) && TurnPointerLive(NextTurn(s, order))
  {
    var s1 := s.(events := s.events + [RoundWinnerIs(RoundWinner(s.players, s.roundScores))],
                 currentRound := s.currentRound + 1, currentPlayerIndex := 0);
    InvFrame(s, s1);
    if s1.currentRound > MaxRounds {
      EndGameFinishes(s1);
    } else {
      StartNewRoundKeeps(s1, order);
    }
  }

  /** `nextTurn` keeps the invariant and leaves the pointer on a word-setter while playing. */
  lemma NextTurnKeeps(s: RoomState, order: seq<ConnId>)
    requires Inv(s) && IsPerm(order, IdSeq(s.players))
    ensures Inv(NextTurn(s, order)) && TurnPointerLive(NextTurn(s, order))
  {
    if |s.turnOrder| < 2 {
      EndGameFinishes(s);
    } else if s.currentPlayerIndex + 1 < |s.turnOrder| {
      NextTurnKeepsWithinRound(s, order);
    } else {
      NextTurnKeepsAtWrap(s, order);
    }
  }

  /** Fewer than two left in the turn order ends the game. */
  lemma NextTurnEndsShortGame(s: RoomState, order: seq<ConnId>)
    requires OrderMembers(s) && IsPerm(order, IdSeq(s.players)) && |s.turnOrder| < 2
    ensures NextTurn(s, order).status == Finished && NextTurn(s, order).currentRound == s.currentRound
  {
  }

  /** Inside a round the pointer moves to the next setter of the same round. */
  lemma NextTurnWithinRound(s: RoomState, order: seq<ConnId>)
    requires OrderMembers(s) && IsPerm(order, IdSeq(s.players))
    requires |s.turnOrder| >= 2 && s.currentPlayerIndex + 1 < |s.turnOrder|
    ensures NextTurn(s, order).currentRound == s.currentRound
    ensures NextTurn(s, order).currentPlayerIndex == s.currentPlayerIndex + 1
    ensures NextTurn(s, order).turnOrder == s.turnOrder
    ensures NextTurn(s, order).roundScores == s.roundScores
  {
    StartNewRoundShape(s.(currentPlayerIndex := s.currentPlayerIndex + 1), order);
  }

  /**
   * Past the end of the turn order the round counter grows and the pointer
   * returns to the head; after round MaxRounds the game ends, otherwise the
   * next round plays in a fresh shuffle with the round scores reset.
   */
  lemma NextTurnWraps(s: RoomState, order: seq<ConnId>)
    requires OrderMembers(s) && IsPerm(order, IdSeq(s.players))
    requires |s.turnOrder| >= 2 && s.currentPlayerIndex + 1 >= |s.turnOrder|
    ensures NextTurn(s, order).currentRound == s.currentRound + 1
    ensures NextTurn(s, order).currentPlayerIndex == 0
    ensures s.currentRound + 1 > MaxRounds ==> NextTurn(s, order).status == Finished
    ensures s.currentRound + 1 <= MaxRounds && |s.players| >= 2 ==>
              && NextTurn(s, order).status == s.status && NextTurn(s, order).turnOrder == order
              && NextTurn(s, order).roundScores == ZeroScores(s.players)
  {
    var s1 := s.(events := s.events + [RoundWinnerIs(RoundWinner(s.players, s.roundScores))],
                 currentRound := s.currentRound + 1, currentPlayerIndex := 0);
    if s1.currentRound <= MaxRounds {
      StartNewRoundShape(s1, order);
    }
  }

  /** A round always ends with the round winner announced before the next round or the end. */
  lemma NextTurnAnnouncesWinner(s: RoomState, order: seq<ConnId>)
    requires OrderMembers(s) && IsPerm(order, IdSeq(s.players))
    requires |s.turnOrder| >= 2 && s.currentPlayerIndex + 1 >= |s.turnOrder|
    ensures |NextTurn(s, order).events| > |s.events|
    ensures NextTurn(s, order).events[|s.events|] == RoundWinnerIs(RoundWinner(s.players, s.roundScores))
  {
  }

  // ---------------------------------------------------------------- join-room

  lemma JoinKeyed(s: RoomState, c: ConnId, name: string)
    requires Keyed(s) && OrderMembers(s)
    ensures Keyed(Joined(s, c, name)) && OrderMembers(Joined(s, c, name))
  {
    IdsAppend(s.players, NewPlayer(s, c, name));
  }

  /** join-room keeps the invariant and never moves the turn pointer. */
  lemma JoinKeeps(s: RoomState, c: ConnId, name: string)
    requires Inv(s)
    ensures Inv(Joined(s, c, name))
    ensures TurnPointerLive(s) ==> TurnPointerLive(Joined(s, c, name))
  {
    JoinKeyed(s, c, name);
  }

  /**
   * A join that passed the guards adds one player, who is host exactly when
   * the room was empty, with zeroed tables; the player enters the turn order
   * only when no game is being played.
   */
  lemma JoinAddsPlayer(s: RoomState, c: ConnId, name: string)
    requires JoinRefusal(s, name) == None
    ensures Joined(s, c, name).players == s.players + [Player(c, name, 0, s.players == [])]
    ensures Joined(s, c, name).scores[c] == 0 && Joined(s, c, name).roundScores[c] == 0
    ensures Joined(s, c, name).streaks[c] == 0 && Joined(s, c, name).achievements[c] == []
    ensures s.status != Playing ==> Joined(s, c, name).turnOrder == s.turnOrder + [c]
    ensures s.status == Playing ==> Joined(s, c, name).turnOrder == s.turnOrder
    ensures Joined(s, c, name).currentPlayerIndex == s.currentPlayerIndex
    ensures Joined(s, c, name).status == s.status
  {
  }

  // ---------------------------------------------------------------- start-game

  /** start-game keeps the invariant and leaves the pointer on a word-setter. */
  lemma StartGameKeeps(s: RoomState, first: seq<ConnId>, order: seq<ConnId>)
    requires Inv(s) && IsPerm(first, IdSeq(s.players)) && IsPerm(order, IdSeq(s.players))
    ensures Inv(StartGame(s, first, order).0)
    ensures StartGame(s, first, order).1.None? || TurnPointerLive(s) ==> TurnPointerLive(StartGame(s, first, order).0)
  {
    if |s.players| >= 2 {
      PermMembers(first, s.players);
      var s1 := s.(status := Playing, currentRound := 1, currentPlayerIndex := 0, turnOrder := first,
                   roundScores := ZeroScores(s.players));
      StartNewRoundKeeps(s1, order);
      var s2 := StartNewRound(s1, order);
      InvFrame(s2, s2.(events := s2.events + [GameStarted]));
    }
  }

  /**
   * start-game needs two players; it then starts round 1 at the head of the
   * shuffled turn order with every round score at zero.
   */
  lemma StartGameBeginsRoundOne(s: RoomState, first: seq<ConnId>, order: seq<ConnId>)
    requires OrderMembers(s) && IsPerm(first, IdSeq(s.players)) && IsPerm(order, IdSeq(s.players))
    ensures StartGame(s, first, order).1 == Some(NeedTwoPlayers) <==> |s.players| < 2
    ensures StartGame(s, first, order).1.Some? ==> StartGame(s, first, order).0 == s
    ensures StartGame(s, first, order).1.None? ==>
              var r := StartGame(s, first, order).0;
              && r.status == Playing && r.currentRound == 1 && r.currentPlayerIndex == 0
              && r.turnOrder == order && r.scores == s.scores && r.correctGuesses == []
              && (forall d :: d in r.roundScores ==> r.roundScores[d] == 0)
  {
    if |s.players| >= 2 {
      PermMembers(first, s.players);
      StartNewRoundShape(s.(status := Playing, currentRound := 1, currentPlayerIndex := 0, turnOrder := first,
                            roundScores := ZeroScores(s.players)), order);
    }
  }

  // ---------------------------------------------------------------- submit-word

  /** submit-word keeps the invariant: the new timer handle is fresh. */
  lemma SubmitWordKeeps(s: RoomState, c: ConnId, word: string, hint: string, now: int, scrambled: string)
    requires Inv(s)
    ensures Inv(SubmitWord(s, c, word, hint, now, scrambled).0)
    ensures TurnPointerLive(s) ==> TurnPointerLive(SubmitWord(s, c, word, hint, now, scrambled).0)
  {
  }

  /**
   * A word is accepted only from the player holding the turn, only if its
   * normalised form has at least 3 characters and two different letters.
   */
  lemma SubmitWordAcceptance(s: RoomState, c: ConnId, word: string, hint: string, now: int, scrambled: string)
    ensures SubmitWord(s, c, word, hint, now, scrambled).1.None? <==>
              HoldsTurn(s, c) && |Normalize(word)| >= 3 && !AllSame(Normalize(word))
    ensures SubmitWord(s, c, word, hint, now, scrambled).1 in {Some(NotInProgress), Some(NotYourTurn), Some(WordTooShort)} ==>
              SubmitWord(s, c, word, hint, now, scrambled).0 == s
    ensures SubmitWord(s, c, word, hint, now, scrambled).1 == Some(SubmitFailed) ==>
              SubmitWord(s, c, word, hint, now, scrambled).0 in {s, s.(currentWord := Normalize(word))}
  {
  }

  /** An accepted word is stored normalised with a fresh round timer armed for it. */
  lemma SubmitWordArmsTimer(s: RoomState, c: ConnId, word: string, hint: string, now: int, scrambled: string)
    requires TimersIssued(s) && SubmitWord(s, c, word, hint, now, scrambled).1.None?
    ensures var r := SubmitWord(s, c, word, hint, now, scrambled).0;
            && r.currentWord == Normalize(word) && r.scrambledWord == scrambled
            && r.correctGuesses == [] && r.hints == [hint] && r.roundStartTime == Some(now)
            && s.nextTimer !in s.liveTimers && r.liveTimers == s.liveTimers + {s.nextTimer}
            && r.gameTimer == Some(s.nextTimer) && r.scores == s.scores
  {
  }

  // ---------------------------------------------------------------- submit-guess

  lemma RecordCorrectKeeps(s: RoomState, c: ConnId, name: string, now: int)
    requires Inv(s) && c in Ids(s.players)
    ensures Inv(RecordCorrect(s, c, name, now))
    ensures TurnPointerLive(s) ==> TurnPointerLive(RecordCorrect(s, c, name, now))
  {
    AfterCheckGrowsWithoutRepeats(s.achievements[c], GuessPoints(s), s.streaks[c] + 1);
  }

  lemma AllGuessedBonusKeeps(s: RoomState)
    requires Inv(s) && s.currentPlayerIndex < |s.turnOrder|
    ensures Inv(AllGuessedBonus(s))
    ensures TurnPointerLive(s) ==> TurnPointerLive(AllGuessedBonus(s))
  {
  }

  lemma CorrectKeeps(s: RoomState, c: ConnId, name: string, now: int)
    requires Inv(s) && c in Ids(s.players) && s.currentPlayerIndex < |s.turnOrder|
    ensures Inv(Correct(s, c, name, now).0)
    ensures TurnPointerLive(s) ==> TurnPointerLive(Correct(s, c, name, now).0)
  {
    RecordCorrectKeeps(s, c, name, now);
    var s1 := RecordCorrect(s, c, name, now);
    if |s1.correctGuesses| == |s.players| - 1 {
      AllGuessedBonusKeeps(s1);
    }
  }

  /** submit-guess keeps the invariant (each achievement held once) and the pointer. */
  lemma SubmitGuessKeeps(s: RoomState, c: ConnId, name: string, guess: string, now: int)
    requires Inv(s)
    ensures Inv(SubmitGuess(s, c, name, guess, now).0)
    ensures TurnPointerLive(s) ==> TurnPointerLive(SubmitGuess(s, c, name, guess, now).0)
  {
    if s.status == Playing && s.currentPlayerIndex < |s.turnOrder| && c != s.turnOrder[s.currentPlayerIndex]
       && c in Ids(s.players) {
      if Normalize(guess) == s.currentWord {
        CorrectKeeps(s, c, name, now);
        assert SubmitGuess(s, c, name, guess, now).0 == Correct(s, c, name, now).0;
      } else {
        assert SubmitGuess(s, c, name, guess, now).0 == Incorrect(s, c, guess);
      }
    }
  }

  lemma RecordCorrectEffect(s: RoomState, c: ConnId, name: string, now: int)
    requires Listed(s, c)
    ensures var r := RecordCorrect(s, c, name, now);
            && r.correctGuesses == s.correctGuesses + [Guess(c, now)]
            && r.scores == s.scores[c := s.scores[c] + GuessPoints(s)]
            && r.roundScores == s.roundScores[c := s.roundScores[c] + GuessPoints(s)]
            && r.streaks == s.streaks[c := s.streaks[c] + 1]
            && r.achievements[c] == AfterCheck(s.achievements[c], GuessPoints(s), s.streaks[c] + 1)
            && r.players == s.players && r.turnOrder == s.turnOrder
            && r.currentPlayerIndex == s.currentPlayerIndex && r.currentWord == s.currentWord
            && r.liveTimers == s.liveTimers && r.gameTimer == s.gameTimer && r.pendingTurns == s.pendingTurns
  {
  }

  lemma AllGuessedBonusEffect(s: RoomState)
    requires s.currentPlayerIndex < |s.turnOrder| && Listed(s, s.turnOrder[s.currentPlayerIndex])
    ensures var r := AllGuessedBonus(s);
            var setter := s.turnOrder[s.currentPlayerIndex];
            && r.scores == s.scores[setter := s.scores[setter] + PositionScore(2, |s.currentWord|)]
            && r.roundScores == s.roundScores[setter := s.roundScores[setter] + PositionScore(2, |s.currentWord|)]
            && r.correctGuesses == s.correctGuesses && r.streaks == s.streaks && r.achievements == s.achievements
            && r.pendingTurns == s.pendingTurns + 1
            && (s.gameTimer.Some? ==> s.gameTimer.value !in r.liveTimers)
  {
  }

  /** A correct guess is logged at the next rank and scored by that rank; the streak grows by one. */
  lemma CorrectGuessScores(s: RoomState, c: ConnId, name: string, guess: string, now: int)
    requires Keyed(s) && OrderMembers(s) && s.status == Playing && s.currentPlayerIndex < |s.turnOrder|
    requires c != s.turnOrder[s.currentPlayerIndex] && c in Ids(s.players)
    requires Normalize(guess) == s.currentWord
    ensures var (r, e, points) := SubmitGuess(s, c, name, guess, now);
            && e == None
            && r.correctGuesses == s.correctGuesses + [Guess(c, now)]
            && points == PositionScore(|r.correctGuesses|, |s.currentWord|)
            && r.scores[c] == s.scores[c] + points
            && r.roundScores[c] == s.roundScores[c] + points
            && r.streaks[c] == s.streaks[c] + 1
            && r.achievements[c] == AfterCheck(s.achievements[c], points, r.streaks[c])
  {
    RecordCorrectEffect(s, c, name, now);
    var s1 := RecordCorrect(s, c, name, now);
    assert SubmitGuess(s, c, name, guess, now) == (Correct(s, c, name, now).0, None, GuessPoints(s));
    if |s1.correctGuesses| == |s.players| - 1 {
      AllGuessedBonusEffect(s1);
      assert Correct(s, c, name, now).0 == AllGuessedBonus(s1);
    } else {
      assert Correct(s, c, name, now).0 == s1;
    }
  }

  /**
   * The guess that leaves nobody but the setter unsolved pays the setter the
   * rank-2 score of the word, cancels the round timer and schedules the next
   * turn.
   */
  lemma CompletionPaysSetter(s: RoomState, c: ConnId, name: string, guess: string, now: int)
    requires Keyed(s) && OrderMembers(s) && s.status == Playing && s.currentPlayerIndex < |s.turnOrder|
    requires c != s.turnOrder[s.currentPlayerIndex] && c in Ids(s.players)
    requires Normalize(guess) == s.currentWord && |s.correctGuesses| + 1 == |s.players| - 1
    ensures var r := SubmitGuess(s, c, name, guess, now).0;
            var setter := s.turnOrder[s.currentPlayerIndex];
            && r.scores[setter] == s.scores[setter] + PositionScore(2, |s.currentWord|)
            && r.pendingTurns == s.pendingTurns + 1
            && (s.gameTimer.Some? ==> s.gameTimer.value !in r.liveTimers)
  {
    RecordCorrectEffect(s, c, name, now);
    var s1 := RecordCorrect(s, c, name, now);
    AllGuessedBonusEffect(s1);
    assert SubmitGuess(s, c, name, guess, now).0 == AllGuessedBonus(s1);
  }

  /** Any other correct guess pays the setter nothing and leaves the timers as they are. */
  lemma PartialGuessPaysSetterNothing(s: RoomState, c: ConnId, name: string, guess: string, now: int)
    requires Keyed(s) && OrderMembers(s) && s.status == Playing && s.currentPlayerIndex < |s.turnOrder|
    requires c != s.turnOrder[s.currentPlayerIndex] && c in Ids(s.players)
    requires Normalize(guess) == s.currentWord && |s.correctGuesses| + 1 != |s.players| - 1
    ensures var r := SubmitGuess(s, c, name, guess, now).0;
            var setter := s.turnOrder[s.currentPlayerIndex];
            && r.scores[setter] == s.scores[setter]
            && r.pendingTurns == s.pendingTurns && r.liveTimers == s.liveTimers
  {
    RecordCorrectEffect(s, c, name, now);
    assert SubmitGuess(s, c, name, guess, now).0 == RecordCorrect(s, c, name, now);
  }

  /** Nobody but the guesser and the setter sees a score change from a guess. */
  lemma GuessTouchesTwoScores(s: RoomState, c: ConnId, name: string, guess: string, now: int, d: ConnId)
    requires Keyed(s) && OrderMembers(s) && s.status == Playing && s.currentPlayerIndex < |s.turnOrder|
    requires d in s.scores && d != c && d != s.turnOrder[s.currentPlayerIndex]
    ensures SubmitGuess(s, c, name, guess, now).0.scores[d] == s.scores[d]
  {
    if c != s.turnOrder[s.currentPlayerIndex] && c in Ids(s.players) && Normalize(guess) == s.currentWord {
      CorrectTouchesTwoScores(s, c, name, now, d);
      assert SubmitGuess(s, c, name, guess, now).0 == Correct(s, c, name, now).0;
    }
  }

  lemma CorrectTouchesTwoScores(s: RoomState, c: ConnId, name: string, now: int, d: ConnId)
    requires Keyed(s) && OrderMembers(s) && c in Ids(s.players) && s.currentPlayerIndex < |s.turnOrder|
    requires d in s.scores && d != c && d != s.turnOrder[s.currentPlayerIndex]
    ensures Correct(s, c, name, now).0.scores[d] == s.scores[d]
  {
    RecordCorrectEffect(s, c, name, now);
    var s1 := RecordCorrect(s, c, name, now);
    assert s1.scores[d] == s.scores[d];
    if |s1.correctGuesses| == |s.players| - 1 {
      AllGuessedBonusEffect(s1);
      assert Correct(s, c, name, now).0 == AllGuessedBonus(s1);
    } else {
      assert Correct(s, c, name, now).0 == s1;
    }
  }

  /** A wrong guess resets the guesser's streak to 0 and changes no score. */
  lemma WrongGuessResetsStreak(s: RoomState, c: ConnId, name: string, guess: string, now: int)
    requires Keyed(s) && OrderMembers(s) && s.status == Playing && s.currentPlayerIndex < |s.turnOrder|
    requires c != s.turnOrder[s.currentPlayerIndex] && c in Ids(s.players)
    requires Normalize(guess) != s.currentWord
    ensures var (r, e, points) := SubmitGuess(s, c, name, guess, now);
            && e == None && points == 0
            && r.streaks == s.streaks[c := 0] && r.scores == s.scores && r.roundScores == s.roundScores
            && r.correctGuesses == s.correctGuesses && r.events == s.events + [IncorrectGuess(c, guess)]
  {
  }

  /** Guesses outside a game are ignored; the setter's own guess is refused; neither changes the room. */
  lemma GuessRefusals(s: RoomState, c: ConnId, name: string, guess: string, now: int)
    requires Keyed(s) && OrderMembers(s)
    ensures s.status != Playing ==> SubmitGuess(s, c, name, guess, now) == (s, None, 0)
    ensures HoldsTurn(s, c) ==> SubmitGuess(s, c, name, guess, now) == (s, Some(OwnWord), 0)
  {
  }

  /** submit-guess never changes who plays, in which order, whose turn it is, or the word. */
  lemma SubmitGuessShape(s: RoomState, c: ConnId, name: string, guess: string, now: int)
    requires Keyed(s) && OrderMembers(s)
    ensures var r := SubmitGuess(s, c, name, guess, now).0;
            && r.status == s.status && r.turnOrder == s.turnOrder && r.currentPlayerIndex == s.currentPlayerIndex
            && r.currentWord == s.currentWord && Ids(r.players) == Ids(s.players)
  {
    if s.status == Playing && s.currentPlayerIndex < |s.turnOrder| && c != s.turnOrder[s.currentPlayerIndex]
       && c in Ids(s.players) && Normalize(guess) == s.currentWord {
      RecordCorrectEffect(s, c, name, now);
      var s1 := RecordCorrect(s, c, name, now);
      assert SubmitGuess(s, c, name, guess, now).0 == Correct(s, c, name, now).0;
      if |s1.correctGuesses| == |s.players| - 1 {
        assert Ids(Credit(s1.players, s1.turnOrder[s1.currentPlayerIndex], PositionScore(2, |s1.currentWord|))) == Ids(s1.players);
      }
    }
  }

  /**
   * The source does not keep `|correctGuesses| <= |players| - 1`: nothing
   * stops a player from guessing the same word again. With two players, two
   * correct guesses by the non-setter log two entries and score twice, the
   * second time at rank 2.
   */
  lemma RepeatedGuessOverflowsLog(s: RoomState, c: ConnId, name: string, guess: string, t1: int, t2: int)
    requires Keyed(s) && OrderMembers(s) && s.status == Playing && s.currentPlayerIndex < |s.turnOrder|
    requires c != s.turnOrder[s.currentPlayerIndex] && c in Ids(s.players)
    requires Normalize(guess) == s.currentWord && s.correctGuesses == [] && |s.players| == 2
    ensures var r1 := SubmitGuess(s, c, name, guess, t1);
            var r2 := SubmitGuess(r1.0, c, name, guess, t2);
            && r2.0.correctGuesses == [Guess(c, t1), Guess(c, t2)]
            && |r2.0.correctGuesses| > |s.players| - 1
            && r1.2 == PositionScore(1, |s.currentWord|) && r2.2 == PositionScore(2, |s.currentWord|)
  {
    CorrectGuessLogged(s, c, name, guess, t1);
    SubmitGuessShape(s, c, name, guess, t1);
    var r1 := SubmitGuess(s, c, name, guess, t1).0;
    CorrectGuessLogged(r1, c, name, guess, t2);
  }

  /** The log and the points of a correct guess alone. */
  lemma CorrectGuessLogged(s: RoomState, c: ConnId, name: string, guess: string, now: int)
    requires Keyed(s) && OrderMembers(s) && s.status == Playing && s.currentPlayerIndex < |s.turnOrder|
    requires c != s.turnOrder[s.currentPlayerIndex] && c in Ids(s.players)
    requires Normalize(guess) == s.currentWord
    ensures var (r, e, points) := SubmitGuess(s, c, name, guess, now);
            && e == None
            && r.correctGuesses == s.correctGuesses + [Guess(c, now)]
            && points == PositionScore(|r.correctGuesses|, |s.currentWord|)
  {
    CorrectGuessScores(s, c, name, guess, now);
  }

  lemma NormalizeBlank()
    ensures Normalize(" ") == ""
  {
    assert Lower(" ") == " ";
  }

  /**
   * Before any word is submitted the stored word is empty, so a blank guess
   * counts as a correct guess and scores.
   */
  lemma BlankGuessBeforeWordScores(s: RoomState, c: ConnId, name: string, now: int)
    requires Keyed(s) && OrderMembers(s) && s.status == Playing && s.currentPlayerIndex < |s.turnOrder|
    requires c != s.turnOrder[s.currentPlayerIndex] && c in Ids(s.players) && s.currentWord == ""
    ensures SubmitGuess(s, c, name, " ", now).0.correctGuesses == s.correctGuesses + [Guess(c, now)]
    ensures SubmitGuess(s, c, name, " ", now).2 == PositionScore(|s.correctGuesses| + 1, 0)
  {
    NormalizeBlank();
    CorrectGuessScores(s, c, name, " ", now);
  }

  // ---------------------------------------------------------------- use-hint

  /** use-hint keeps the invariant and the pointer. */
  lemma HintKeeps(s: RoomState, c: ConnId)
    requires Inv(s)
    ensures Inv(UseHint(s, c).0)
    ensures TurnPointerLive(s) ==> TurnPointerLive(UseHint(s, c).0)
  {
  }

  /**
   * A hint takes HintCost from the asking player's total and round scores,
   * floored at zero, and from nobody else; the setter cannot ask.
   */
  lemma HintCharges(s: RoomState, c: ConnId)
    requires Keyed(s)
    ensures HoldsTurn(s, c) ==> UseHint(s, c) == (s, Some(OwnHint), false)
    ensures UseHint(s, c).2 <==>
              s.status == Playing && s.currentPlayerIndex < |s.turnOrder|
              && c != s.turnOrder[s.currentPlayerIndex] && c in Ids(s.players)
    ensures !UseHint(s, c).2 ==> UseHint(s, c).0 == s
  {
  }

  lemma HintDeducts(s: RoomState, c: ConnId)
    requires Keyed(s) && UseHint(s, c).2
    ensures var r := UseHint(s, c).0;
            && r.scores[c] == AfterHint(s.scores[c]) && r.roundScores[c] == AfterHint(s.roundScores[c])
            && 0 <= s.scores[c] - r.scores[c] <= HintCost
            && (forall d :: d in s.scores && d != c ==> r.scores[d] == s.scores[d])
  {
    HintCostBounded(s.scores[c]);
  }

  // ---------------------------------------------------------------- create-room

  /**
   * `parseInt` of a missing or non-numeric capacity is NaN, and both
   * comparisons with NaN are false, so the as-written check lets it through;
   * the intended check refuses it.
   */
  lemma CapacityNaNAccepted()
    ensures AcceptsCapacity(None) && !AcceptsCapacityIntended(None)
  {
  }

  /** On every number the two checks agree; NaN is the only difference. */
  lemma CapacityChecksAgreeOnNumbers(m: Option<int>)
    ensures m.Some? ==> (AcceptsCapacity(m) <==> AcceptsCapacityIntended(m))
    ensures AcceptsCapacityIntended(m) ==> AcceptsCapacity(m)
  {
  }

  /** A room of NaN capacity is never full: `length >= NaN` is false. */
  lemma NaNCapacityNeverFull(s: RoomState)
    requires s.config.maxPlayers.None?
    ensures !IsFull(s)
  {
  }

  // ---------------------------------------------------------------- timers

  /** The round timer keeps the invariant and the pointer. */
  lemma RoundTimerKeeps(s: RoomState, h: nat)
    requires Inv(s) && h in s.liveTimers
    ensures Inv(FireRoundTimer(s, h).0)
    ensures TurnPointerLive(s) ==> TurnPointerLive(FireRoundTimer(s, h).0)
  {
  }

  /**
   * The round timer: the setter earns NoGuessBonus when nobody solved the
   * word, a `nextTurn` is scheduled, and the callback throws (ending the
   * process) exactly when the turn pointer designates nobody.
   */
  lemma RoundTimerSettles(s: RoomState, h: nat)
    requires Keyed(s) && OrderMembers(s) && h in s.liveTimers
    ensures var (r, crashed) := FireRoundTimer(s, h);
            && h !in r.liveTimers
            && (crashed <==> s.currentPlayerIndex >= |s.turnOrder|)
            && (!crashed ==> r.pendingTurns == s.pendingTurns + 1)
            && (!crashed && s.correctGuesses == [] ==>
                  r.scores[s.turnOrder[s.currentPlayerIndex]] == s.scores[s.turnOrder[s.currentPlayerIndex]] + NoGuessBonus)
            && (s.correctGuesses != [] ==> r.scores == s.scores)
  {
  }

  /** A scheduled `nextTurn` behaves as `nextTurn`. */
  lemma NextTurnCallbackKeeps(s: RoomState, order: seq<ConnId>)
    requires Inv(s) && IsPerm(order, IdSeq(s.players)) && s.pendingTurns > 0
    ensures Inv(FireNextTurn(s, order)) && TurnPointerLive(FireNextTurn(s, order))
  {
    NextTurnKeeps(s.(pendingTurns := s.pendingTurns - 1), order);
  }

  // ---------------------------------------------------------------- disconnect

  /** Removal drops the player from every list and table and keeps the invariant. */
  lemma RemoveKeeps(s: RoomState, c: ConnId)
    requires Inv(s)
    ensures Inv(RemovePlayer(s, c))
  {
  }

  /** Host reassignment keeps the invariant. */
  lemma AssignHostKeeps(s: RoomState)
    requires Inv(s) && |s.players| > 0
    ensures Inv(AssignHost(s))
  {
  }

  /** The disconnect recovery keeps the invariant and leaves the pointer on a word-setter while playing. */
  lemma RecoverRestoresPointer(s: RoomState, c: ConnId, order: seq<ConnId>)
    requires Inv(s) && IsPerm(order, IdSeq(s.players))
    ensures Inv(Recover(s, c, order))
    ensures s.status == Playing ==> TurnPointerLive(Recover(s, c, order))
    ensures s.status == Playing && |s.turnOrder| < 2 ==> Recover(s, c, order).status == Finished
  {
    if s.status == Playing {
      if |s.turnOrder| < 2 {
        EndGameFinishes(s);
      } else {
        var s2 := if s.currentPlayerIndex >= |s.turnOrder| then s.(currentPlayerIndex := 0) else s;
        if s2.turnOrder[s2.currentPlayerIndex] == c {
          NextTurnKeeps(ClearTimer(s2), order);
        }
      }
    }
  }

  /** A departure keeps the invariant of the room, emptied or not. */
  lemma LeaveKeeps(s: RoomState, c: ConnId, wasHost: bool, order: seq<ConnId>)
    requires Inv(s) && IsPerm(order, IdSeq(RemovePlayer(s, c).players))
    ensures Inv(Leave(s, c, wasHost, order).0)
    ensures Leave(s, c, wasHost, order).1 == Emptied <==> Ids(s.players) <= {c}
  {
    var t := RemovePlayer(s, c);
    RemoveKeeps(s, c);
    if |t.players| > 0 {
      assert t.players[0].id in Ids(t.players);
      if wasHost {
        AssignHostKeeps(t);
      } else {
        RecoverRestoresPointer(t, c, order);
      }
    }
  }

  /** The intended departure keeps the invariant too, and a game in play keeps a live turn pointer. */
  lemma LeaveIntendedKeeps(s: RoomState, c: ConnId, wasHost: bool, order: seq<ConnId>)
    requires Inv(s) && IsPerm(order, IdSeq(RemovePlayer(s, c).players))
    ensures Inv(LeaveIntended(s, c, wasHost, order).0)
    ensures LeaveIntended(s, c, wasHost, order).1 <==> Ids(s.players) <= {c}
    ensures var (r, emptied) := LeaveIntended(s, c, wasHost, order);
            !emptied && s.status == Playing ==> TurnPointerLive(r)
  {
    var t := RemovePlayer(s, c);
    RemoveKeeps(s, c);
    if |t.players| > 0 {
      assert t.players[0].id in Ids(t.players);
      HandoverKeeps(s, c, wasHost);
      RecoverIntendedRestoresPointer(Handover(s, c, wasHost), c, HoldsTurn(s, c), order);
    }
  }

  /** The hand-over changes only the players, their tables, the turn order and the pointer. */
  lemma HandoverKeeps(s: RoomState, c: ConnId, wasHost: bool)
    requires |RemovePlayer(s, c).players| > 0
    ensures Inv(s) ==> Inv(Handover(s, c, wasHost))
    ensures var u := Handover(s, c, wasHost);
            && u.status == s.status && u.currentRound == s.currentRound
            && u.currentWord == s.currentWord && u.scrambledWord == s.scrambledWord
            && u.correctGuesses == s.correctGuesses && u.roundStartTime == s.roundStartTime
            && u.gameTimer == s.gameTimer && u.liveTimers == s.liveTimers && u.events == s.events
            && u.roundScores == s.roundScores - {c} && |u.players| == |RemovePlayer(s, c).players|
            && (s.currentPlayerIndex <= |s.turnOrder| ==>
                  u.currentPlayerIndex == |Without(s.turnOrder[..s.currentPlayerIndex], c)|)
  {
    if Inv(s) {
      var t := RemovePlayer(s, c);
      RemoveKeeps(s, c);
      if wasHost {
        AssignHostKeeps(t);
        InvFrame(AssignHost(t), Handover(s, c, wasHost));
      } else {
        InvFrame(t, Handover(s, c, wasHost));
      }
    }
  }

  /** The intended recovery keeps the invariant and leaves the pointer on a word-setter while playing. */
  lemma RecoverIntendedRestoresPointer(s: RoomState, c: ConnId, heldTurn: bool, order: seq<ConnId>)
    requires Inv(s) && IsPerm(order, IdSeq(s.players))
    requires heldTurn ==> s.currentPlayerIndex <= |s.turnOrder|
    ensures Inv(RecoverIntended(s, c, heldTurn, order))
    ensures s.status == Playing ==> TurnPointerLive(RecoverIntended(s, c, heldTurn, order))
    ensures s.status == Playing && |s.turnOrder| < 2 ==> RecoverIntended(s, c, heldTurn, order).status == Finished
  {
    if s.status == Playing {
      if |s.turnOrder| < 2 {
        EndGameFinishes(s);
      } else if heldTurn {
        HandOnKeeps(ClearTimer(s), order);
      }
    }
  }

  /** Handing the turn on keeps the invariant and a live pointer. */
  lemma HandOnKeeps(s: RoomState, order: seq<ConnId>)
    requires Inv(s) && IsPerm(order, IdSeq(s.players))
    requires 2 <= |s.turnOrder| && s.currentPlayerIndex <= |s.turnOrder|
    ensures Inv(HandOn(s, order)) && TurnPointerLive(HandOn(s, order))
  {
    if s.currentPlayerIndex == |s.turnOrder| {
      var s1 := s.(currentPlayerIndex := |s.turnOrder| - 1);
      InvFrame(s, s1);
      NextTurnKeeps(s1, order);
    }
  }

  /**
   * As written, the check whether the leaver held the turn can never succeed,
   * because it reads the turn order after the leaver was filtered out: when
   * the word-setter leaves, the word, its guesses and its round timer stay,
   * and the player shifted into the setter's slot inherits them.
   */
  lemma SetterDepartureDoesNotAdvance(s: RoomState, c: ConnId, order: seq<ConnId>)
    requires OrderMembers(s) && HoldsTurn(s, c)
    requires |Without(s.turnOrder, c)| >= 2
    requires IsPerm(order, IdSeq(RemovePlayer(s, c).players))
    ensures Leave(s, c, false, order).1 == Departed
    ensures var r := Leave(s, c, false, order).0;
            && r.status == Playing
            && r.currentWord == s.currentWord && r.correctGuesses == s.correctGuesses
            && r.liveTimers == s.liveTimers && r.gameTimer == s.gameTimer && r.currentRound == s.currentRound
            && r.events == s.events + [PlayerLeft(c), RoomUpdated]
  {
    var t := RemovePlayer(s, c);
    assert t.turnOrder[0] in Ids(t.players);
    assert Leave(s, c, false, order) == (Recover(t, c, order), Departed);
    SetterRecoveryStays(s, c, order);
  }

  lemma SetterRecoveryStays(s: RoomState, c: ConnId, order: seq<ConnId>)
    requires OrderMembers(s) && HoldsTurn(s, c)
    requires |Without(s.turnOrder, c)| >= 2
    requires IsPerm(order, IdSeq(RemovePlayer(s, c).players))
    ensures var r := Recover(RemovePlayer(s, c), c, order);
            && r.status == Playing
            && r.currentWord == s.currentWord && r.correctGuesses == s.correctGuesses
            && r.liveTimers == s.liveTimers && r.gameTimer == s.gameTimer && r.currentRound == s.currentRound
            && r.events == s.events + [PlayerLeft(c), RoomUpdated]
  {
    var t := RemovePlayer(s, c);
    var i := if t.currentPlayerIndex >= |t.turnOrder| then 0 else t.currentPlayerIndex;
    WithoutNowhere(s.turnOrder, c, i);
  }

  /**
   * With the check made before the removal, the word-setter's departure
   * cancels the round timer and hands the turn, within the same round, to
   * the player `j` who followed the setter in the turn order: the pointer is
   * moved back past the setter's entry, so it lands on that player.
   */
  lemma SetterDepartureAdvancesIntended(s: RoomState, c: ConnId, wasHost: bool, j: nat, order: seq<ConnId>)
    requires Inv(s) && HoldsTurn(s, c)
    requires |Without(s.turnOrder, c)| >= 2 && |PlayersWithout(s.players, c)| >= 2
    requires s.currentPlayerIndex < j < |s.turnOrder| && s.turnOrder[j] != c
    requires forall m :: s.currentPlayerIndex < m < j ==> s.turnOrder[m] == c
    requires IsPerm(order, IdSeq(RemovePlayer(s, c).players))
    ensures !LeaveIntended(s, c, wasHost, order).1
    ensures var r := LeaveIntended(s, c, wasHost, order).0;
            && Inv(r) && r.status == Playing && r.currentRound == s.currentRound
            && r.turnOrder == Without(s.turnOrder, c) && r.currentPlayerIndex < |r.turnOrder|
            && r.turnOrder[r.currentPlayerIndex] == s.turnOrder[j]
            && r.currentWord == "" && r.correctGuesses == [] && r.roundScores == s.roundScores - {c}
            && (s.gameTimer.Some? ==> s.gameTimer.value !in r.liveTimers)
  {
    HandoverKeeps(s, c, wasHost);
    var u := Handover(s, c, wasHost);
    WithoutSuccessor(s.turnOrder, c, s.currentPlayerIndex, j);
    assert LeaveIntended(s, c, wasHost, order) == (RecoverIntended(u, c, true, order), false);
    RecoveryHandsOnWithinRound(u, c, order);
  }

  lemma RecoveryHandsOnWithinRound(u: RoomState, c: ConnId, order: seq<ConnId>)
    requires Inv(u) && IsPerm(order, IdSeq(u.players)) && u.status == Playing
    requires 2 <= |u.turnOrder| && u.currentPlayerIndex < |u.turnOrder| && |u.players| >= 2
    ensures var r := RecoverIntended(u, c, true, order);
            && Inv(r) && r.status == Playing && r.currentRound == u.currentRound
            && r.turnOrder == u.turnOrder && r.currentPlayerIndex == u.currentPlayerIndex
            && r.currentWord == "" && r.correctGuesses == [] && r.roundScores == u.roundScores
            && (u.gameTimer.Some? ==> u.gameTimer.value !in r.liveTimers)
  {
    RecoverIntendedRestoresPointer(u, c, true, order);
    assert HandOn(ClearTimer(u), order) == BeginTurn(ClearTimer(u));
  }

  /**
   * When nobody followed the setter in the turn order, the same departure
   * ends the round: the winner is announced, and the next round starts at
   * the head of a fresh shuffle with the round scores reset, or after
   * round MaxRounds the game ends.
   */
  lemma LastSetterDepartureEndsRoundIntended(s: RoomState, c: ConnId, wasHost: bool, order: seq<ConnId>)
    requires Inv(s) && HoldsTurn(s, c)
    requires |Without(s.turnOrder, c)| >= 2 && |PlayersWithout(s.players, c)| >= 2
    requires forall m :: s.currentPlayerIndex < m < |s.turnOrder| ==> s.turnOrder[m] == c
    requires IsPerm(order, IdSeq(RemovePlayer(s, c).players))
    ensures !LeaveIntended(s, c, wasHost, order).1
    ensures var r := LeaveIntended(s, c, wasHost, order).0;
            && Inv(r) && r.currentRound == s.currentRound + 1
            && |r.events| > |s.events| && r.events[|s.events|].RoundWinnerIs?
            && (s.currentRound + 1 > MaxRounds ==> r.status == Finished)
            && (s.currentRound + 1 <= MaxRounds ==>
                  && r.status == Playing && r.currentPlayerIndex == 0 && r.turnOrder == order
                  && r.roundScores == ZeroScores(r.players) && r.currentWord == "")
  {
    HandoverKeeps(s, c, wasHost);
    var u := Handover(s, c, wasHost);
    WithoutNoSuccessor(s.turnOrder, c, s.currentPlayerIndex);
    var r := RecoverIntended(u, c, true, order);
    assert LeaveIntended(s, c, wasHost, order) == (r, false);
    RecoveryEndsRound(u, c, order);
  }

  lemma RecoveryEndsRound(u: RoomState, c: ConnId, order: seq<ConnId>)
    requires Inv(u) && IsPerm(order, IdSeq(u.players)) && u.status == Playing
    requires 2 <= |u.turnOrder| && u.currentPlayerIndex == |u.turnOrder| && |u.players| >= 2
    ensures var r := RecoverIntended(u, c, true, order);
            && Inv(r) && r.currentRound == u.currentRound + 1
            && |r.events| > |u.events| && r.events[|u.events|].RoundWinnerIs?
            && (u.currentRound + 1 > MaxRounds ==> r.status == Finished)
            && (u.currentRound + 1 <= MaxRounds ==>
                  && r.status == Playing && r.currentPlayerIndex == 0 && r.turnOrder == order
                  && r.roundScores == ZeroScores(r.players) && r.currentWord == "")
  {
    RecoverIntendedRestoresPointer(u, c, true, order);
    var w := ClearTimer(u).(currentPlayerIndex := |u.turnOrder| - 1);
    var n := NextTurn(w, order);
    assert RecoverIntended(u, c, true, order) == n.(events := n.events + [PlayerLeft(c), RoomUpdated]);
    NextTurnWraps(w, order);
    NextTurnAnnouncesWinner(w, order);
    NextTurnFrame(w, order);
  }

  /**
   * A departure of anyone but the word-setter leaves the turn with the setter
   * `d`: the pointer follows `d` to its new index, and the word, its guesses,
   * its round timer and the round stay.
   */
  lemma DepartureKeepsTurnIntended(s: RoomState, c: ConnId, d: ConnId, wasHost: bool, order: seq<ConnId>)
    requires OrderMembers(s) && HoldsTurn(s, d) && c != d
    requires |Without(s.turnOrder, c)| >= 2
    requires IsPerm(order, IdSeq(RemovePlayer(s, c).players))
    ensures !LeaveIntended(s, c, wasHost, order).1
    ensures var r := LeaveIntended(s, c, wasHost, order).0;
            && r.status == Playing && r.currentRound == s.currentRound
            && r.turnOrder == Without(s.turnOrder, c) && r.currentPlayerIndex < |r.turnOrder|
            && r.turnOrder[r.currentPlayerIndex] == d
            && r.currentWord == s.currentWord && r.scrambledWord == s.scrambledWord
            && r.correctGuesses == s.correctGuesses && r.roundStartTime == s.roundStartTime
            && r.liveTimers == s.liveTimers && r.gameTimer == s.gameTimer
            && r.events == s.events + [PlayerLeft(c), RoomUpdated]
  {
    var t := RemovePlayer(s, c);
    assert d in Ids(t.players);
    HandoverKeeps(s, c, wasHost);
    var u := Handover(s, c, wasHost);
    WithoutAt(s.turnOrder, c, s.currentPlayerIndex, s.currentPlayerIndex);
    var r := RecoverIntended(u, c, false, order);
    assert r == u.(events := u.events + [PlayerLeft(c), RoomUpdated]);
    assert LeaveIntended(s, c, wasHost, order) == (r, false);
  }

  /** nextTurn keeps the player list and never issues a timer. */
  lemma NextTurnFrame(s: RoomState, order: seq<ConnId>)
    requires OrderMembers(s) && IsPerm(order, IdSeq(s.players))
    ensures NextTurn(s, order).players == s.players && NextTurn(s, order).liveTimers <= s.liveTimers
  {
    if |s.turnOrder| < 2 {
      assert NextTurn(s, order) == EndGame(s);
    } else if s.currentPlayerIndex + 1 < |s.turnOrder| {
      var s1 := s.(currentPlayerIndex := s.currentPlayerIndex + 1);
      StartNewRoundFrame(s1, order);
      assert NextTurn(s, order) == StartNewRound(s1, order);
    } else {
      NextTurnFrameAtWrap(s, order);
    }
  }

  lemma NextTurnFrameAtWrap(s: RoomState, order: seq<ConnId>)
    requires OrderMembers(s) && IsPerm(order, IdSeq(s.players))
    requires |s.turnOrder| >= 2 && s.currentPlayerIndex + 1 >= |s.turnOrder|
    ensures NextTurn(s, order).players == s.players && NextTurn(s, order).liveTimers <= s.liveTimers
  {
    var s1 := s.(events := s.events + [RoundWinnerIs(RoundWinner(s.players, s.roundScores))],
                 currentRound := s.currentRound + 1, currentPlayerIndex := 0);
    if s1.currentRound <= MaxRounds {
      StartNewRoundFrame(s1, order);
      assert NextTurn(s, order) == StartNewRound(s1, order);
    } else {
      assert NextTurn(s, order) == EndGame(s1);
    }
  }

  /** startNewRound keeps the player list and the timers. */
  lemma StartNewRoundFrame(s: RoomState, order: seq<ConnId>)
    requires OrderMembers(s) && IsPerm(order, IdSeq(s.players))
    requires s.currentPlayerIndex == 0 || s.currentPlayerIndex < |s.turnOrder|
    ensures StartNewRound(s, order).players == s.players && StartNewRound(s, order).liveTimers == s.liveTimers
  {
  }

  /** The intended recovery keeps the player list, and cancels the round timer when it moves play on. */
  lemma RecoverIntendedFrame(s: RoomState, c: ConnId, heldTurn: bool, order: seq<ConnId>)
    requires OrderMembers(s) && IsPerm(order, IdSeq(s.players))
    requires heldTurn ==> s.currentPlayerIndex <= |s.turnOrder|
    ensures var r := RecoverIntended(s, c, heldTurn, order);
            && r.players == s.players && r.liveTimers <= s.liveTimers
            && (s.status == Playing && heldTurn && s.gameTimer.Some? ==> s.gameTimer.value !in r.liveTimers)
  {
    if s.status == Playing && |s.turnOrder| >= 2 && heldTurn {
      var h := HandOn(ClearTimer(s), order);
      HandOnFrame(ClearTimer(s), order);
      assert RecoverIntended(s, c, heldTurn, order) == h.(events := h.events + [PlayerLeft(c), RoomUpdated]);
    }
  }

  /** Handing the turn on keeps the player list and never issues a timer. */
  lemma HandOnFrame(s: RoomState, order: seq<ConnId>)
    requires OrderMembers(s) && IsPerm(order, IdSeq(s.players))
    requires 2 <= |s.turnOrder| && s.currentPlayerIndex <= |s.turnOrder|
    ensures HandOn(s, order).players == s.players && HandOn(s, order).liveTimers <= s.liveTimers
  {
    if s.currentPlayerIndex == |s.turnOrder| {
      var w := s.(currentPlayerIndex := |s.turnOrder| - 1);
      NextTurnFrame(w, order);
      assert HandOn(s, order) == NextTurn(w, order);
    }
  }

  /**
   * The host flag passes to the first player in join order who is not the
   * leaver, as written and as intended.
   */
  lemma HostPassesToFirstRemaining(s: RoomState, c: ConnId, k: nat, order: seq<ConnId>)
    requires OrderMembers(s) && k < |s.players| && s.players[k].id != c
    requires forall j :: 0 <= j < k ==> s.players[j].id == c
    requires IsPerm(order, IdSeq(RemovePlayer(s, c).players))
    ensures Leave(s, c, true, order).1 == Threw
    ensures |Leave(s, c, true, order).0.players| > 0
    ensures Leave(s, c, true, order).0.players[0] == s.players[k].(isHost := true)
  {
    PlayersWithoutFirst(s.players, c, k);
  }

  lemma HostPassesToFirstRemainingIntended(s: RoomState, c: ConnId, k: nat, order: seq<ConnId>)
    requires OrderMembers(s) && k < |s.players| && s.players[k].id != c
    requires forall j :: 0 <= j < k ==> s.players[j].id == c
    requires IsPerm(order, IdSeq(RemovePlayer(s, c).players))
    ensures !LeaveIntended(s, c, true, order).1
    ensures |LeaveIntended(s, c, true, order).0.players| > 0
    ensures LeaveIntended(s, c, true, order).0.players[0] == s.players[k].(isHost := true)
  {
    PlayersWithoutFirst(s.players, c, k);
    var u := Handover(s, c, true);
    assert u.players == AssignHost(RemovePlayer(s, c)).players;
    RecoverIntendedFrame(u, c, HoldsTurn(s, c), order);
    assert LeaveIntended(s, c, true, order) == (RecoverIntended(u, c, HoldsTurn(s, c), order), false);
  }

  /**
   * As written, the departure of a player ahead of the word-setter shifts
   * the setter down one index while the pointer stays: with turn order
   * [a, b, x, d] and `x` setting, `b`'s departure leaves `d` at the pointer
   * with `x`'s word still standing. As intended the turn stays with `x`.
   */
  lemma EarlierDepartureShiftsTurn(s: RoomState, a: ConnId, b: ConnId, x: ConnId, d: ConnId, order: seq<ConnId>)
    requires OrderMembers(s) && s.status == Playing && s.currentPlayerIndex == 2
    requires s.turnOrder == [a, b, x, d] && b != a && b != x && b != d
    requires IsPerm(order, IdSeq(RemovePlayer(s, b).players))
    ensures Leave(s, b, false, order).1 == Departed
    ensures var r := Leave(s, b, false, order).0;
            && r.status == Playing && r.turnOrder == [a, x, d] && r.currentPlayerIndex == 2
            && r.turnOrder[r.currentPlayerIndex] == d && r.currentWord == s.currentWord
    ensures var r := LeaveIntended(s, b, false, order).0;
            r.turnOrder[r.currentPlayerIndex] == x && r.currentWord == s.currentWord
  {
    assert Without(s.turnOrder, b) == [a, x, d] by {
      assert [d][1..] == [] && [x, d][1..] == [d] && [b, x, d][1..] == [x, d];
      assert Without([d], b) == [d];
      assert Without([x, d], b) == [x, d];
      assert Without([b, x, d], b) == [x, d];
      assert s.turnOrder[1..] == [b, x, d];
    }
    var t := RemovePlayer(s, b);
    assert a in Ids(t.players);
    assert Recover(t, b, order) == t.(events := t.events + [PlayerLeft(b), RoomUpdated]);
    assert Leave(s, b, false, order) == (Recover(t, b, order), Departed);
    DepartureKeepsTurnIntended(s, b, x, false, order);
  }

  /**
   * As written, when the host leaves a two-player game the handler stops
   * after moving the host flag: the game stays in play with one player and
   * a turn pointer past the end of the turn order.
   */
  lemma HostDepartureStallsGame(s: RoomState, c: ConnId, d: ConnId, order: seq<ConnId>)
    requires s.status == Playing && c != d && |s.players| == 2
    requires s.players[0].id == c && s.players[1].id == d
    requires s.turnOrder == [d, c] && s.currentPlayerIndex == 1
    requires IsPerm(order, IdSeq(RemovePlayer(s, c).players))
    ensures Leave(s, c, true, order).1 == Threw
    ensures var r := Leave(s, c, true, order).0;
            && r.status == Playing && r.turnOrder == [d] && !TurnPointerLive(r)
            && r.players[0].id == d && r.players[0].isHost
  {
    assert s.turnOrder[1..][1..] == [];
    assert Without(s.turnOrder, c) == [d];
    assert s.players[1..][1..] == [];
    assert PlayersWithout(s.players, c) == [s.players[1]];
  }

  /** In such a stalled room every round timer that fires throws, which ends the server process. */
  lemma StalledRoomTimerThrows(s: RoomState, h: nat)
    requires Keyed(s) && OrderMembers(s) && !TurnPointerLive(s) && h in s.liveTimers
    ensures FireRoundTimer(s, h).1
  {
  }

  /** With the recovery run, the same departure finishes the game, as a game under two players must. */
  lemma HostDepartureEndsGameIntended(s: RoomState, c: ConnId, order: seq<ConnId>)
    requires Inv(s) && s.status == Playing && |Without(s.turnOrder, c)| < 2
    requires |RemovePlayer(s, c).players| > 0
    requires IsPerm(order, IdSeq(RemovePlayer(s, c).players))
    ensures !LeaveIntended(s, c, true, order).1
    ensures var r := LeaveIntended(s, c, true, order).0;
            r.status == Finished && TurnPointerLive(r)
  {
    HandoverKeeps(s, c, true);
    RecoverIntendedRestoresPointer(Handover(s, c, true), c, HoldsTurn(s, c), order);
  }
}
