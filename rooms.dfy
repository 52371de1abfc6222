/**
 * One room object of the game server (project/server/index.js) as the
 * handlers and timer callbacks see it: a record whose fields they assign in
 * place. Every method performs the source's steps on the fields and is
 * specified by the function of module Game for the same step, so that the
 * properties proved about those functions hold of the object.
 *
 * The room's fields are kept as the source names them; the four per-player
 * tables, the fields describing the current word and the timer bookkeeping
 * are each held in one record-valued field (`tables`, `round`, `timers`).
 */
module Rooms {
  import opened Wrappers
  import opened Text
  import opened Scoring
  import opened Achievements
  import opened Shuffle
  import opened Players
  import opened Game

  /** `room.scores`, `room.roundScores`, `room.achievements` and `room.streaks`. */
  datatype Tables = Tables(scores: map<ConnId, nat>, roundScores: map<ConnId, nat>,
                           achievements: map<ConnId, seq<Achievement>>, streaks: map<ConnId, nat>)

  /** `room.currentWord`, `scrambledWord`, `correctGuesses`, `hints` and `roundStartTime`. */
  datatype Round = Round(currentWord: string, scrambledWord: string, correctGuesses: seq<Guess>,
                         hints: seq<string>, roundStartTime: Option<int>)

  /** `room.gameTimer` with the handles issued, armed and pending (see Game.RoomState). */
  datatype Timers = Timers(gameTimer: Option<nat>, liveTimers: set<nat>, nextTimer: nat, pendingTurns: nat)

  class Room {
    const config: Config
    var players: seq<Player>
    var status: Status
    var currentRound: nat
    var currentPlayerIndex: nat
    var turnOrder: seq<ConnId>
    var tables: Tables
    var round: Round
    var timers: Timers
    var events: seq<Event>

    /** The fields as one snapshot. */
    function State(): RoomState
      reads this
    {
      RoomState(config, players, status, currentRound, round.currentWord, round.scrambledWord, currentPlayerIndex,
                tables.scores, tables.roundScores, tables.achievements, tables.streaks, turnOrder,
                round.correctGuesses, round.hints, round.roundStartTime,
                timers.gameTimer, timers.liveTimers, timers.nextTimer, timers.pendingTurns, events)
    }

    /** The room create-room builds after its capacity check. */
    constructor (cfg: Config)
      ensures State() == Initial(cfg)
    {
      config := cfg;
      players := [];
      status := Waiting;
      currentRound := 0;
      currentPlayerIndex := 0;
      turnOrder := [];
      tables := Tables(map[], map[], map[], map[]);
      round := Round("", "", [], [], None);
      timers := Timers(None, {}, 0, 0);
      events := [];
    }

    /** `clearTimeout(room.gameTimer)`. */
    method ClearGameTimer()
      modifies this
      ensures State() == ClearTimer(old(State()))
    {
      if timers.gameTimer.Some? {
        timers := timers.(liveTimers := timers.liveTimers - {timers.gameTimer.value});
      }
    }

    // ------------------------------------------------------------ join-room

    /** join-room after the room lookup: the capacity and name guards, then the new player. */
    method Join(c: ConnId, name: string) returns (err: Option<ErrorKind>)
      modifies this
      ensures err == JoinRefusal(old(State()), name)
      ensures State() == if err.None? then Joined(old(State()), c, name) else old(State())
    {
      if config.maxPlayers.Some? && |players| >= config.maxPlayers.value {
        return Some(RoomFull);
      }
      if exists i :: 0 <= i < |players| && players[i].name == name {
        return Some(NameTaken);
      }
      AddPlayer(c, name);
      err := None;
    }

    /** The new player's record, table entries and, outside a game, turn-order entry. */
    method AddPlayer(c: ConnId, name: string)
      modifies this
      ensures State() == Joined(old(State()), c, name)
    {
      var player := Player(c, name, 0, |players| == 0);
      players := players + [player];
      tables := Tables(tables.scores[c := 0], tables.roundScores[c := 0],
                       tables.achievements[c := []], tables.streaks[c := 0]);
      if status != Playing {
        turnOrder := turnOrder + [c];
      }
      events := events + [JoinedRoom(c, player), PlayerJoined(player), RoomUpdated];
    }

    // ------------------------------------------------------------ rounds and turns

    /**
     * `startNewRound`. At the start of a round the players are shuffled into
     * a new turn order; `order` is that shuffle (the unchanged id list
     * otherwise, which the specification does not read).
     */
    method StartNewRound() returns (ghost order: seq<ConnId>)
      requires OrderMembers(State())
      requires currentPlayerIndex == 0 || currentPlayerIndex < |turnOrder|
      modifies this
      ensures IsPerm(order, IdSeq(old(players)))
      ensures State() == Game.StartNewRound(old(State()), order)
    {
      order := IdSeq(players);
      if |players| < 2 {
        ToLobby();
        return;
      }
      if currentPlayerIndex == 0 {
        order := Reshuffle();
      }
      PermMembers(order, players);
      BeginTurn();
    }

    method ToLobby()
      modifies this
      ensures State() == Game.ToLobby(old(State()))
    {
      status := Waiting;
      events := events + [NotEnoughPlayers, RoomUpdated];
    }

    method BeginTurn()
      requires OrderMembers(State()) && currentPlayerIndex < |turnOrder|
      modifies this
      ensures State() == Game.BeginTurn(old(State()))
    {
      round := round.(currentWord := "", scrambledWord := "", roundStartTime := None, correctGuesses := []);
      var setter := turnOrder[currentPlayerIndex];
      events := events + [NewRound(currentRound, MaxRounds, setter, NameOf(players, setter)), YourTurn(setter)];
    }

    /** A fresh turn order and zero round scores. */
    method Reshuffle() returns (order: seq<ConnId>)
      modifies this
      ensures IsPerm(order, IdSeq(players))
      ensures State() == old(State()).(turnOrder := order, roundScores := ZeroScores(players))
    {
      order := ShuffleArray(IdSeq(players));
      turnOrder := order;
      tables := tables.(roundScores := ZeroScores(players));
    }

    /** `endGame`: the leaderboard is computed from the scores, which the method does not change. */
    method EndGame()
      modifies this
      ensures State() == Game.EndGame(old(State()))
    {
      var leaderboard := Leaderboard(State());
      status := Finished;
      ClearGameTimer();
      events := events + [GameEnded(leaderboard)];
    }

    /** `nextTurn`; `order` is the shuffle of a round that starts. */
    method NextTurn() returns (ghost order: seq<ConnId>)
      requires OrderMembers(State())
      modifies this
      ensures IsPerm(order, IdSeq(old(players)))
      ensures State() == Game.NextTurn(old(State()), order)
    {
      order := IdSeq(players);
      if |turnOrder| < 2 {
        EndGame();
        return;
      }
      currentPlayerIndex := currentPlayerIndex + 1;
      if currentPlayerIndex >= |turnOrder| {
        var winner := DetermineRoundWinner(players, tables.roundScores);
        events := events + [RoundWinnerIs(winner)];
        currentRound := currentRound + 1;
        currentPlayerIndex := 0;
        if currentRound > MaxRounds {
          EndGame();
          return;
        }
      }
      order := StartNewRound();
    }

    // ------------------------------------------------------------ start-game

    /**
     * start-game after the host check: the handler's own shuffle `first`,
     * then `startNewRound`, which shuffles again into `order`.
     */
    method StartGame() returns (err: Option<ErrorKind>, ghost first: seq<ConnId>, ghost order: seq<ConnId>)
      requires OrderMembers(State())
      modifies this
      ensures IsPerm(first, IdSeq(old(players))) && IsPerm(order, IdSeq(old(players)))
      ensures (State(), err) == Game.StartGame(old(State()), first, order)
    {
      first, order := IdSeq(players), IdSeq(players);
      if |players| < 2 {
        return Some(NeedTwoPlayers), first, order;
      }
      status := Playing;
      currentRound := 1;
      currentPlayerIndex := 0;
      first := Reshuffle();
      PermMembers(first, players);
      order := StartNewRound();
      events := events + [GameStarted];
      err := None;
    }

    // ------------------------------------------------------------ submit-word

    /**
     * submit-word from connection `c`; `hint` is what the hint table gives
     * for the word, `now` the clock. `scrambled` is the scramble stored.
     */
    method SubmitWord(c: ConnId, word: string, hint: string, now: int) returns (err: Option<ErrorKind>, scrambled: string)
      modifies this
      ensures (State(), err) == Game.SubmitWord(old(State()), c, word, hint, now, scrambled)
      ensures err.None? ==> IsPerm(scrambled, Normalize(word)) && scrambled != Normalize(word)
    {
      scrambled := "";
      if status != Playing {
        return Some(NotInProgress), scrambled;
      }
      if currentPlayerIndex >= |turnOrder| {
        return Some(SubmitFailed), scrambled;
      }
      if c != turnOrder[currentPlayerIndex] {
        return Some(NotYourTurn), scrambled;
      }
      var selected := Normalize(word);
      if |selected| < 3 {
        return Some(WordTooShort), scrambled;
      }
      round := round.(currentWord := selected);
      if AllSame(selected) {
        return Some(SubmitFailed), scrambled;
      }
      scrambled := ScrambleWord(selected);
      round := round.(scrambledWord := scrambled, roundStartTime := Some(now), hints := [hint], correctGuesses := []);
      events := events + [WordScrambled(scrambled, currentRound, hint, |selected|, c)];
      timers := timers.(gameTimer := Some(timers.nextTimer), liveTimers := timers.liveTimers + {timers.nextTimer},
                        nextTimer := timers.nextTimer + 1);
      err := None;
    }

    // ------------------------------------------------------------ submit-guess

    /**
     * submit-guess from connection `c` whose stored name is `name`; `points`
     * is what the connection's own player copy is credited.
     */
    method SubmitGuess(c: ConnId, name: string, guess: string, now: int) returns (err: Option<ErrorKind>, points: nat)
      requires Keyed(State()) && OrderMembers(State())
      modifies this
      ensures (State(), err, points) == Game.SubmitGuess(old(State()), c, name, guess, now)
    {
      if status != Playing {
        return None, 0;
      }
      if currentPlayerIndex >= |turnOrder| {
        return Some(GuessFailed), 0;
      }
      if c == turnOrder[currentPlayerIndex] {
        return Some(OwnWord), 0;
      }
      if c !in Ids(players) {
        return None, 0;
      }
      if Normalize(guess) == round.currentWord {
        ghost var s := State();
        points := RecordCorrect(c, name, now);
        if |round.correctGuesses| == |players| - 1 {
          AllGuessedBonus();
        }
        assert State() == Correct(s, c, name, now).0;
      } else {
        tables := tables.(streaks := tables.streaks[c := 0]);
        events := events + [IncorrectGuess(c, guess)];
        points := 0;
      }
      err := None;
    }

    /** The guess is logged and scored by its rank; the streak grows and achievements are checked. */
    method RecordCorrect(c: ConnId, name: string, now: int) returns (points: nat)
      requires Listed(State(), c)
      modifies this
      ensures points == GuessPoints(old(State()))
      ensures State() == Game.RecordCorrect(old(State()), c, name, now)
    {
      round := round.(correctGuesses := round.correctGuesses + [Guess(c, now)]);
      var position := |round.correctGuesses|;
      points := PositionScore(position, |round.currentWord|);
      var streak := tables.streaks[c] + 1;
      tables := tables.(scores := tables.scores[c := tables.scores[c] + points],
                        roundScores := tables.roundScores[c := tables.roundScores[c] + points],
                        streaks := tables.streaks[c := streak]);
      ghost var s := old(State());
      assert State() == s.(correctGuesses := s.correctGuesses + [Guess(c, now)],
                           scores := s.scores[c := s.scores[c] + points],
                           roundScores := s.roundScores[c := s.roundScores[c] + points],
                           streaks := s.streaks[c := streak]);
      CheckAchievements(c, points, streak);
      events := events + [CorrectGuess(c, name, round.currentWord, points, streak, position)];
    }

    /** `checkAchievements`: the new achievements are collected in the source's order and appended. */
    method CheckAchievements(c: ConnId, score: int, streak: int)
      requires c in tables.achievements
      modifies this
      ensures State() == Game.CheckAchievements(old(State()), c, score, streak)
    {
      var held := tables.achievements[c];
      var found: seq<Achievement> := [];
      if |held| == 0 {
        found := found + [FirstCorrect];
      }
      if score >= 100 && HighScorer !in held {
        found := found + [HighScorer];
      }
      if streak == 3 && Streak3 !in held {
        found := found + [Streak3];
      }
      if streak == 5 && Streak5 !in held {
        found := found + [Streak5];
      }
      assert found == Unlocked(held, score, streak);
      if |found| > 0 {
        tables := tables.(achievements := tables.achievements[c := held + found]);
        events := events + [AchievementUnlocked(c, found)];
      }
    }

    /** The setter's reward once every other player has guessed. */
    method AllGuessedBonus()
      requires currentPlayerIndex < |turnOrder| && Listed(State(), turnOrder[currentPlayerIndex])
      modifies this
      ensures State() == Game.AllGuessedBonus(old(State()))
    {
      var setter := turnOrder[currentPlayerIndex];
      var bonus := PositionScore(2, |round.currentWord|);
      RewardSetter(setter, bonus);
      ClearGameTimer();
      events := events + [AllGuessed(setter, bonus)];
      timers := timers.(pendingTurns := timers.pendingTurns + 1);
    }

    /** The score, round score and player record of `setter` are raised by `bonus`. */
    method RewardSetter(setter: ConnId, bonus: nat)
      requires Listed(State(), setter)
      modifies this
      ensures State() == Reward(old(State()), setter, bonus)
    {
      tables := tables.(scores := tables.scores[setter := tables.scores[setter] + bonus],
                        roundScores := tables.roundScores[setter := tables.roundScores[setter] + bonus]);
      players := Credit(players, setter, bonus);
    }

    // ------------------------------------------------------------ use-hint

    /** use-hint from connection `c`; `charged` says whether its own player copy is charged too. */
    method UseHint(c: ConnId) returns (err: Option<ErrorKind>, charged: bool)
      requires Keyed(State())
      modifies this
      ensures (State(), err, charged) == Game.UseHint(old(State()), c)
    {
      if status != Playing {
        return None, false;
      }
      if currentPlayerIndex >= |turnOrder| {
        return Some(HintFailed), false;
      }
      if c == turnOrder[currentPlayerIndex] {
        return Some(OwnHint), false;
      }
      if c !in Ids(players) {
        return None, false;
      }
      tables := tables.(scores := tables.scores[c := AfterHint(tables.scores[c])],
                        roundScores := tables.roundScores[c := AfterHint(tables.roundScores[c])]);
      events := events + [HintUsed(c, if |round.hints| > 0 then Some(round.hints[0]) else None, HintCost)];
      return None, true;
    }

    // ------------------------------------------------------------ timers

    /**
     * The round timer `h` fires (`endRound`); `crashed` is true when the
     * callback throws for want of a player at the turn pointer.
     */
    method FireRoundTimer(h: nat) returns (crashed: bool)
      requires Keyed(State()) && OrderMembers(State()) && h in timers.liveTimers
      modifies this
      ensures (State(), crashed) == Game.FireRoundTimer(old(State()), h)
    {
      timers := timers.(liveTimers := timers.liveTimers - {h});
      ClearGameTimer();
      var hasSetter := currentPlayerIndex < |turnOrder|;
      if |round.correctGuesses| == 0 {
        if !hasSetter {
          return true;
        }
        NoGuessReward();
      }
      events := events + [RoundEnded(round.currentWord, round.scrambledWord), RoomUpdated];
      timers := timers.(pendingTurns := timers.pendingTurns + 1);
      crashed := !hasSetter;
    }

    /** Nobody guessed: the setter earns the no-guess bonus. */
    method NoGuessReward()
      requires currentPlayerIndex < |turnOrder| && turnOrder[currentPlayerIndex] in Ids(players)
      modifies this
      ensures State() == Game.NoGuessReward(old(State()))
    {
      var setter := turnOrder[currentPlayerIndex];
      tables := tables.(scores := tables.scores[setter := Get(tables.scores, setter, 0) + NoGuessBonus],
                        roundScores := tables.roundScores[setter := Get(tables.roundScores, setter, 0) + NoGuessBonus]);
      players := Credit(players, setter, NoGuessBonus);
      events := events + [NoGuesses(setter, NoGuessBonus)];
    }

    /** A scheduled `nextTurn` callback fires. */
    method FireNextTurn() returns (ghost order: seq<ConnId>)
      requires OrderMembers(State()) && timers.pendingTurns > 0
      modifies this
      ensures IsPerm(order, IdSeq(old(players)))
      ensures State() == Game.FireNextTurn(old(State()), order)
    {
      timers := timers.(pendingTurns := timers.pendingTurns - 1);
      assert State() == old(State()).(pendingTurns := old(timers.pendingTurns) - 1);
      order := NextTurn();
    }

    // ------------------------------------------------------------ disconnect

    /** The leaver is filtered out of the player list and the turn order and deleted from the tables. */
    method RemovePlayer(c: ConnId)
      modifies this
      ensures State() == Game.RemovePlayer(old(State()), c)
    {
      players := PlayersWithout(players, c);
      turnOrder := Without(turnOrder, c);
      tables := Tables(tables.scores - {c}, tables.roundScores - {c}, tables.achievements - {c}, tables.streaks - {c});
    }

    /** `room.players[0].isHost = true`. */
    method AssignHost()
      requires |players| > 0
      modifies this
      ensures State() == Game.AssignHost(old(State()))
    {
      players := players[0 := players[0].(isHost := true)];
    }

    /** The rest of disconnect for a room that still has players, as written. */
    method Recover(c: ConnId) returns (ghost order: seq<ConnId>)
      requires OrderMembers(State())
      modifies this
      ensures IsPerm(order, IdSeq(old(players)))
      ensures State() == Game.Recover(old(State()), c, order)
    {
      order := IdSeq(players);
      if status == Playing {
        if |turnOrder| < 2 {
          EndGame();
        } else {
          if currentPlayerIndex >= |turnOrder| {
            currentPlayerIndex := 0;
          }
          if turnOrder[currentPlayerIndex] == c {
            ClearGameTimer();
            order := NextTurn();
          }
        }
      }
      events := events + [PlayerLeft(c), RoomUpdated];
    }

    /** The same step with the turn check made before the removal (`heldTurn`) and the pointer already shifted. */
    method RecoverIntended(c: ConnId, heldTurn: bool) returns (ghost order: seq<ConnId>)
      requires OrderMembers(State())
      requires heldTurn ==> currentPlayerIndex <= |turnOrder|
      modifies this
      ensures IsPerm(order, IdSeq(old(players)))
      ensures State() == Game.RecoverIntended(old(State()), c, heldTurn, order)
    {
      order := IdSeq(players);
      if status == Playing {
        if |turnOrder| < 2 {
          EndGame();
        } else if heldTurn {
          ClearGameTimer();
          order := HandOn();
        } else if currentPlayerIndex >= |turnOrder| {
          currentPlayerIndex := 0;
        }
      }
      events := events + [PlayerLeft(c), RoomUpdated];
    }

    /** The turn passes to the player at the pointer, or the round ends past the last one. */
    method HandOn() returns (ghost order: seq<ConnId>)
      requires OrderMembers(State())
      requires 2 <= |turnOrder| && currentPlayerIndex <= |turnOrder|
      modifies this
      ensures IsPerm(order, IdSeq(old(players)))
      ensures State() == Game.HandOn(old(State()), order)
    {
      order := IdSeq(players);
      if currentPlayerIndex < |turnOrder| {
        if |players| < 2 {
          ToLobby();
        } else {
          BeginTurn();
        }
      } else {
        currentPlayerIndex := |turnOrder| - 1;
        order := NextTurn();
      }
    }

    /** disconnect for this room, as written; `wasHost` is the leaver's session flag. */
    method Leave(c: ConnId, wasHost: bool) returns (outcome: Departure, ghost order: seq<ConnId>)
      requires OrderMembers(State())
      modifies this
      ensures IsPerm(order, IdSeq(Game.RemovePlayer(old(State()), c).players))
      ensures (State(), outcome) == Game.Leave(old(State()), c, wasHost, order)
    {
      RemovePlayer(c);
      order := IdSeq(players);
      if |players| == 0 {
        ClearGameTimer();
        return Emptied, order;
      }
      if wasHost {
        AssignHost();
        return Threw, order;
      }
      order := Recover(c);
      outcome := Departed;
    }

    /** disconnect for this room as intended; `emptied` says whether the last player left. */
    method LeaveIntended(c: ConnId, wasHost: bool) returns (emptied: bool, ghost order: seq<ConnId>)
      requires OrderMembers(State())
      modifies this
      ensures IsPerm(order, IdSeq(Game.RemovePlayer(old(State()), c).players))
      ensures (State(), emptied) == Game.LeaveIntended(old(State()), c, wasHost, order)
    {
      var heldTurn := status == Playing && currentPlayerIndex < |turnOrder| && turnOrder[currentPlayerIndex] == c;
      var shifted := Shifted(State(), c);
      RemovePlayer(c);
      order := IdSeq(players);
      if |players| == 0 {
        ClearGameTimer();
        return true, order;
      }
      if wasHost {
        AssignHost();
      }
      currentPlayerIndex := shifted;
      order := RecoverIntended(c, heldTurn);
      emptied := false;
    }
  }
}
