/**
 * The room state machine of the game server (project/server/index.js) as
 * pure functions over a snapshot of one room. Each function is one event
 * handler or one timer callback applied to that snapshot, including the
 * events the server emits; the class Rooms.Room performs the same steps in
 * place and is specified by these functions.
 */
module Game {
  import opened Wrappers
  import opened Text
  import opened Scoring
  import opened Achievements
  import opened Shuffle
  import opened Players

  type RoomId = string

  /** `room.maxRounds`, the same for every room. */
  const MaxRounds: nat := 5

  datatype Status = Waiting | Playing | Finished

  /**
   * The settings fixed at creation. `maxPlayers` is the result of `parseInt`:
   * `None` stands for `NaN`, which every comparison rejects.
   */
  datatype Config = Config(id: RoomId, name: string, isPublic: bool, timePerRound: int,
                           maxPlayers: Option<int>, difficulty: string)

  /** An entry of `room.correctGuesses`. */
  datatype Guess = Guess(playerId: ConnId, timestamp: int)

  /** The errors the server reports to the requester only. */
  datatype ErrorKind =
    | InvalidConfig     // 'Maximum players must be between 2 and 8'
    | RoomNotFound      // 'Room not found'
    | RoomFull          // 'Room is full'
    | NameTaken         // 'Player name already taken'
    | OnlyHost          // 'Only the host can start the game'
    | NeedTwoPlayers    // 'Need at least 2 players to start'
    | NotInProgress     // 'Game not in progress'
    | NotYourTurn       // 'Not your turn to submit a word'
    | WordTooShort      // 'Word must be at least 3 letters long'
    | SubmitFailed      // 'Failed to submit word' (an exception inside the handler)
    | OwnWord           // 'You cannot guess your own word'
    | GuessFailed       // 'Failed to submit guess'
    | OwnHint           // 'You cannot use hints for your own word'
    | HintFailed        // 'Failed to use hint'

  /**
   * What the server emits for a room: broadcasts to the room, and the few
   * messages addressed to one connection (those with a `to` field).
   * `NewRound` is sent to every player; each derives `isYourTurn` by
   * comparing `currentPlayerId` with its own id.
   */
  datatype Event =
    | JoinedRoom(to: ConnId, player: Player)
    | PlayerJoined(player: Player)
    | RoomUpdated
    | GameStarted
    | NotEnoughPlayers
    | NewRound(round: nat, maxRounds: nat, currentPlayerId: ConnId, currentPlayer: string)
    | YourTurn(to: ConnId)
    | WordScrambled(scrambledWord: string, round: nat, hint: string, wordLength: nat, wordSetterId: ConnId)
    | AchievementUnlocked(to: ConnId, unlocked: seq<Achievement>)
    | CorrectGuess(playerId: ConnId, playerName: string, word: string, score: int, streak: int, position: nat)
    | IncorrectGuess(to: ConnId, guess: string)
    | AllGuessed(wordSetterId: ConnId, score: int)
    | HintUsed(to: ConnId, heldHint: Option<string>, cost: int)
    | NoGuesses(wordSetterId: ConnId, score: int)
    | RoundEnded(word: string, scrambledWord: string)
    | RoundWinnerIs(winner: Winner)
    | GameEnded(leaderboard: seq<Entry>)
    | PlayerLeft(playerId: ConnId)

  /**
   * One room. Round timers are handles: `gameTimer` is the last one armed,
   * `liveTimers` those armed and neither fired nor cleared, `nextTimer` the
   * next unused handle. `pendingTurns` counts the scheduled `nextTurn`
   * callbacks, which the source never cancels.
   */
  datatype RoomState = RoomState(
    config: Config,
    players: seq<Player>,
    status: Status,
    currentRound: nat,
    currentWord: string,
    scrambledWord: string,
    currentPlayerIndex: nat,
    scores: map<ConnId, nat>,
    roundScores: map<ConnId, nat>,
    achievements: map<ConnId, seq<Achievement>>,
    streaks: map<ConnId, nat>,
    turnOrder: seq<ConnId>,
    correctGuesses: seq<Guess>,
    hints: seq<string>,
    roundStartTime: Option<int>,
    gameTimer: Option<nat>,
    liveTimers: set<nat>,
    nextTimer: nat,
    pendingTurns: nat,
    events: seq<Event>)

  // ---------------------------------------------------------------- invariants

  /** The per-player tables are keyed by exactly the ids of the players. */
  ghost predicate Keyed(s: RoomState)
  {
    && s.scores.Keys == Ids(s.players)
    && s.roundScores.Keys == s.scores.Keys
    && s.achievements.Keys == s.scores.Keys
    && s.streaks.Keys == s.scores.Keys
  }

  /** Player `c` is in the list and has an entry in every table. */
  ghost predicate Listed(s: RoomState, c: ConnId)
  {
    c in Ids(s.players) && c in s.scores && c in s.roundScores && c in s.achievements && c in s.streaks
  }

  /** Every entry of the turn order is a player of the room. */
  ghost predicate OrderMembers(s: RoomState)
  {
    forall c :: c in s.turnOrder ==> c in Ids(s.players)
  }

  /** What every handler and callback of the source keeps. */
  ghost predicate Inv(s: RoomState)
  {
    Keyed(s) && OrderMembers(s) && Bounded(s) && TimersIssued(s)
  }

  /** Nobody holds an achievement twice. */
  ghost predicate Bounded(s: RoomState)
  {
    forall c :: c in s.achievements ==> NoDup(s.achievements[c])
  }

  /** Every live timer handle was issued before the next one. */
  ghost predicate TimersIssued(s: RoomState)
  {
    forall h :: h in s.liveTimers ==> h < s.nextTimer
  }

  /** While the game is on, the turn pointer designates a word-setter. */
  ghost predicate TurnPointerLive(s: RoomState)
  {
    s.status == Playing ==> s.currentPlayerIndex < |s.turnOrder|
  }

  /** Every entry of a shuffled id list is a player id. */
  lemma PermMembers(order: seq<ConnId>, ps: seq<Player>)
    requires IsPerm(order, IdSeq(ps))
    ensures forall c :: c in order ==> c in Ids(ps)
  {
    forall c | c in order ensures c in Ids(ps) {
      assert c in multiset(order);
    }
  }

  // ---------------------------------------------------------------- creation

  /** The capacity check of create-room: `parsedMaxPlayers > 8 || parsedMaxPlayers < 2` refuses. */
  predicate AcceptsCapacity(maxPlayers: Option<int>)
  {
    !(maxPlayers.Some? && (maxPlayers.value > 8 || maxPlayers.value < 2))
  }

  /** The check as intended: a capacity that is a number between 2 and 8. */
  predicate AcceptsCapacityIntended(maxPlayers: Option<int>)
  {
    maxPlayers.Some? && 2 <= maxPlayers.value <= 8
  }

  /** The room create-room stores. */
  function Initial(cfg: Config): (s: RoomState)
    ensures Inv(s) && TurnPointerLive(s)
    ensures s.status == Waiting && s.players == [] && s.currentRound == 0 && s.turnOrder == []
  {
    RoomState(cfg, [], Waiting, 0, "", "", 0, map[], map[], map[], map[], [], [], [],
              None, None, {}, 0, 0, [])
  }

  // ---------------------------------------------------------------- common steps

  function ZeroScores(ps: seq<Player>): (m: map<ConnId, nat>)
    ensures m.Keys == Ids(ps)
    ensures forall c :: c in m ==> m[c] == 0
  {
    map c | c in Ids(ps) :: 0
  }

  /** `clearTimeout(room.gameTimer)`. */
  function ClearTimer(s: RoomState): (r: RoomState)
  {
    s.(liveTimers := if s.gameTimer.Some? then s.liveTimers - {s.gameTimer.value} else s.liveTimers)
  }

  function LeaderboardEntries(s: RoomState): (es: seq<Entry>)
    ensures |es| == |s.players|
  {
    seq(|s.players|, i requires 0 <= i < |s.players| =>
      Entry(s.players[i].name, Get(s.scores, s.players[i].id, 0),
            Get(s.achievements, s.players[i].id, []), Get(s.streaks, s.players[i].id, 0)))
  }

  /** The players' totals, highest first. */
  function Leaderboard(s: RoomState): seq<Entry>
  {
    SortDesc(LeaderboardEntries(s))
  }

  /** `endGame`. */
  function EndGame(s: RoomState): (r: RoomState)
  {
    ClearTimer(s).(status := Finished, events := s.events + [GameEnded(Leaderboard(s))])
  }

  /**
   * `startNewRound`. `order` is the shuffle drawn when the pointer is at the
   * start of the turn order.
   */
  function StartNewRound(s: RoomState, order: seq<ConnId>): (r: RoomState)
    requires OrderMembers(s) && IsPerm(order, IdSeq(s.players))
    requires s.currentPlayerIndex == 0 || s.currentPlayerIndex < |s.turnOrder|
  {
    if |s.players| < 2 then ToLobby(s)
    else
      var s1 := if s.currentPlayerIndex == 0 then s.(turnOrder := order, roundScores := ZeroScores(s.players)) else s;
      PermMembers(order, s.players);
      BeginTurn(s1)
  }

  /** The branch of `startNewRound` for fewer than two players: back to the lobby. */
  function ToLobby(s: RoomState): (r: RoomState)
  {
    s.(status := Waiting, events := s.events + [NotEnoughPlayers, RoomUpdated])
  }

  /** The rest of `startNewRound`: the word is cleared and the player at the pointer is asked for one. */
  function BeginTurn(s: RoomState): (r: RoomState)
    requires OrderMembers(s) && s.currentPlayerIndex < |s.turnOrder|
  {
    var setter := s.turnOrder[s.currentPlayerIndex];
    s.(currentWord := "", scrambledWord := "", roundStartTime := None, correctGuesses := [],
       events := s.events + [NewRound(s.currentRound, MaxRounds, setter, NameOf(s.players, setter)),
                             YourTurn(setter)])
  }

  /** `nextTurn`. */
  function NextTurn(s: RoomState, order: seq<ConnId>): (r: RoomState)
    requires OrderMembers(s) && IsPerm(order, IdSeq(s.players))
  {
    if |s.turnOrder| < 2 then EndGame(s)
    else if s.currentPlayerIndex + 1 < |s.turnOrder| then
      StartNewRound(s.(currentPlayerIndex := s.currentPlayerIndex + 1), order)
    else
      var s1 := s.(events := s.events + [RoundWinnerIs(RoundWinner(s.players, s.roundScores))],
                   currentRound := s.currentRound + 1, currentPlayerIndex := 0);
      if s1.currentRound > MaxRounds then EndGame(s1) else StartNewRound(s1, order)
  }

  // ---------------------------------------------------------------- join-room

  predicate IsFull(s: RoomState)
  {
    s.config.maxPlayers.Some? && |s.players| >= s.config.maxPlayers.value
  }

  predicate NameInUse(ps: seq<Player>, name: string)
  {
    exists i :: 0 <= i < |ps| && ps[i].name == name
  }

  /** The join guards after the room was found, in the source's order. */
  function JoinRefusal(s: RoomState, name: string): (e: Option<ErrorKind>)
    ensures e == Some(RoomFull) <==> IsFull(s)
    ensures e == Some(NameTaken) <==> !IsFull(s) && NameInUse(s.players, name)
    ensures e == None <==> !IsFull(s) && !NameInUse(s.players, name)
  {
    if IsFull(s) then Some(RoomFull)
    else if NameInUse(s.players, name) then Some(NameTaken)
    else None
  }

  function NewPlayer(s: RoomState, c: ConnId, name: string): Player
  {
    Player(c, name, 0, |s.players| == 0)
  }

  /** join-room once the guards passed. */
  function Joined(s: RoomState, c: ConnId, name: string): (r: RoomState)
  {
    var p := NewPlayer(s, c, name);
    s.(players := s.players + [p],
       scores := s.scores[c := 0], roundScores := s.roundScores[c := 0],
       achievements := s.achievements[c := []], streaks := s.streaks[c := 0],
       turnOrder := if s.status != Playing then s.turnOrder + [c] else s.turnOrder,
       events := s.events + [JoinedRoom(c, p), PlayerJoined(p), RoomUpdated])
  }

  // ---------------------------------------------------------------- start-game

  /**
   * start-game once the host check passed. The handler shuffles the players
   * into `first`; `startNewRound`, which finds the pointer at 0, shuffles
   * them again into `order`, the turn order that is kept.
   */
  function StartGame(s: RoomState, first: seq<ConnId>, order: seq<ConnId>): (r: (RoomState, Option<ErrorKind>))
    requires OrderMembers(s) && IsPerm(first, IdSeq(s.players)) && IsPerm(order, IdSeq(s.players))
  {
    if |s.players| < 2 then (s, Some(NeedTwoPlayers))
    else
      var s1 := s.(status := Playing, currentRound := 1, currentPlayerIndex := 0, turnOrder := first,
                   roundScores := ZeroScores(s.players));
      PermMembers(first, s.players);
      var s2 := StartNewRound(s1, order);
      (s2.(events := s2.events + [GameStarted]), None)
  }

  // ---------------------------------------------------------------- submit-word

  /**
   * submit-word. `scrambled` is what `scrambleWord` returned and `hint` what
   * the hint table gives for the word. A word whose letters are all the same
   * makes `scrambleWord` recurse until the stack is exhausted; the handler
   * catches the error after `currentWord` was already assigned.
   */
  function SubmitWord(s: RoomState, c: ConnId, word: string, hint: string, now: int, scrambled: string)
    : (r: (RoomState, Option<ErrorKind>))
  {
    if s.status != Playing then (s, Some(NotInProgress))
    else if s.currentPlayerIndex >= |s.turnOrder| then (s, Some(SubmitFailed))
    else if c != s.turnOrder[s.currentPlayerIndex] then (s, Some(NotYourTurn))
    else
      var w := Normalize(word);
      if |w| < 3 then (s, Some(WordTooShort))
      else if AllSame(w) then (s.(currentWord := w), Some(SubmitFailed))
      else
        (s.(currentWord := w, scrambledWord := scrambled, roundStartTime := Some(now), hints := [hint],
            correctGuesses := [],
            events := s.events + [WordScrambled(scrambled, s.currentRound, hint, |w|, c)],
            gameTimer := Some(s.nextTimer), liveTimers := s.liveTimers + {s.nextTimer},
            nextTimer := s.nextTimer + 1),
         None)
  }

  // ---------------------------------------------------------------- submit-guess

  /** The setter's reward when every other player has guessed the word. */
  function AllGuessedBonus(s: RoomState): (r: RoomState)
    requires s.currentPlayerIndex < |s.turnOrder| && Listed(s, s.turnOrder[s.currentPlayerIndex])
  {
    var setter := s.turnOrder[s.currentPlayerIndex];
    var bonus := PositionScore(2, |s.currentWord|);
    var s1 := ClearTimer(Reward(s, setter, bonus));
    s1.(events := s1.events + [AllGuessed(setter, bonus)], pendingTurns := s1.pendingTurns + 1)
  }

  /** `bonus` is added to the score, the round score and the player record of `setter`. */
  function Reward(s: RoomState, setter: ConnId, bonus: nat): RoomState
    requires Listed(s, setter)
  {
    s.(scores := s.scores[setter := s.scores[setter] + bonus],
       roundScores := s.roundScores[setter := s.roundScores[setter] + bonus],
       players := Credit(s.players, setter, bonus))
  }

  /** The points of the next correct guess: its rank in the log decides them. */
  function GuessPoints(s: RoomState): nat
  {
    PositionScore(|s.correctGuesses| + 1, |s.currentWord|)
  }

  /** A correct guess by player `c` is logged and scored, the streak raised and achievements checked. */
  function RecordCorrect(s: RoomState, c: ConnId, name: string, now: int): (r: RoomState)
    requires Listed(s, c)
  {
    var guesses := s.correctGuesses + [Guess(c, now)];
    var points := GuessPoints(s);
    var streak := s.streaks[c] + 1;
    var s1 := CheckAchievements(s.(correctGuesses := guesses,
                                   scores := s.scores[c := s.scores[c] + points],
                                   roundScores := s.roundScores[c := s.roundScores[c] + points],
                                   streaks := s.streaks[c := streak]),
                                c, points, streak);
    s1.(events := s1.events + [CorrectGuess(c, name, s.currentWord, points, streak, |guesses|)])
  }

  /** `checkAchievements`: the achievements one scoring event unlocks are stored and announced. */
  function CheckAchievements(s: RoomState, c: ConnId, score: int, streak: int): RoomState
    requires c in s.achievements
  {
    var held := s.achievements[c];
    var unlocked := Unlocked(held, score, streak);
    if |unlocked| > 0 then
      s.(achievements := s.achievements[c := held + unlocked], events := s.events + [AchievementUnlocked(c, unlocked)])
    else s
  }

  /** A correct guess; when it completes the round the setter earns its bonus too. */
  function Correct(s: RoomState, c: ConnId, name: string, now: int): (r: (RoomState, nat))
    requires Keyed(s) && OrderMembers(s) && c in Ids(s.players) && s.currentPlayerIndex < |s.turnOrder|
    ensures Keyed(r.0) && OrderMembers(r.0)
  {
    RecordCorrectKeyed(s, c, name, now);
    var s1 := RecordCorrect(s, c, name, now);
    if |s1.correctGuesses| == |s.players| - 1 then
      AllGuessedBonusKeyed(s1);
      (AllGuessedBonus(s1), GuessPoints(s))
    else (s1, GuessPoints(s))
  }

  lemma RecordCorrectKeyed(s: RoomState, c: ConnId, name: string, now: int)
    requires Keyed(s) && OrderMembers(s) && c in Ids(s.players)
    ensures Keyed(RecordCorrect(s, c, name, now)) && OrderMembers(RecordCorrect(s, c, name, now))
  {
  }

  lemma AllGuessedBonusKeyed(s: RoomState)
    requires Keyed(s) && OrderMembers(s) && s.currentPlayerIndex < |s.turnOrder|
    ensures Keyed(AllGuessedBonus(s)) && OrderMembers(AllGuessedBonus(s))
  {
  }

  /**
   * submit-guess from connection `c` whose stored name is `name`; the third
   * component is the score added to the connection's own player copy.
   */
  function SubmitGuess(s: RoomState, c: ConnId, name: string, guess: string, now: int)
    : (r: (RoomState, Option<ErrorKind>, nat))
    requires Keyed(s) && OrderMembers(s)
    ensures Keyed(r.0) && OrderMembers(r.0)
  {
    if s.status != Playing then (s, None, 0)
    else if s.currentPlayerIndex >= |s.turnOrder| then (s, Some(GuessFailed), 0)
    else if c == s.turnOrder[s.currentPlayerIndex] then (s, Some(OwnWord), 0)
    else if c !in Ids(s.players) then (s, None, 0)
    else if Normalize(guess) == s.currentWord then
      var correct := Correct(s, c, name, now);
      (correct.0, None, correct.1)
    else
      (Incorrect(s, c, guess), None, 0)
  }

  /** A wrong guess by player `c`: the streak is broken. */
  function Incorrect(s: RoomState, c: ConnId, guess: string): (r: RoomState)
    requires Keyed(s) && OrderMembers(s) && c in Ids(s.players)
    ensures Keyed(r) && OrderMembers(r)
  {
    s.(streaks := s.streaks[c := 0], events := s.events + [IncorrectGuess(c, guess)])
  }

  // ---------------------------------------------------------------- use-hint

  /** use-hint from `c`; the third component says whether the player's own copy is charged too. */
  function UseHint(s: RoomState, c: ConnId): (r: (RoomState, Option<ErrorKind>, bool))
    requires Keyed(s)
  {
    if s.status != Playing then (s, None, false)
    else if s.currentPlayerIndex >= |s.turnOrder| then (s, Some(HintFailed), false)
    else if c == s.turnOrder[s.currentPlayerIndex] then (s, Some(OwnHint), false)
    else if c !in Ids(s.players) then (s, None, false)
    else
      (s.(scores := s.scores[c := AfterHint(s.scores[c])],
          roundScores := s.roundScores[c := AfterHint(s.roundScores[c])],
          events := s.events + [HintUsed(c, if |s.hints| > 0 then Some(s.hints[0]) else None, HintCost)]),
       None, true)
  }

  // ---------------------------------------------------------------- timers

  function NoGuessReward(s: RoomState): (r: RoomState)
    requires s.currentPlayerIndex < |s.turnOrder| && s.turnOrder[s.currentPlayerIndex] in Ids(s.players)
  {
    var setter := s.turnOrder[s.currentPlayerIndex];
    s.(scores := s.scores[setter := Get(s.scores, setter, 0) + NoGuessBonus],
       roundScores := s.roundScores[setter := Get(s.roundScores, setter, 0) + NoGuessBonus],
       players := Credit(s.players, setter, NoGuessBonus),
       events := s.events + [NoGuesses(setter, NoGuessBonus)])
  }

  /**
   * The round timer `h` fires (`endRound`). The second component is true when
   * the callback throws because no player is at the turn pointer: an
   * exception in a timer callback is not caught and ends the server process.
   */
  function FireRoundTimer(s: RoomState, h: nat): (r: (RoomState, bool))
    requires Keyed(s) && OrderMembers(s) && h in s.liveTimers
  {
    var s0 := ClearTimer(s.(liveTimers := s.liveTimers - {h}));
    var hasSetter := s0.currentPlayerIndex < |s0.turnOrder|;
    if |s0.correctGuesses| == 0 && !hasSetter then (s0, true)
    else
      var s1 := if |s0.correctGuesses| == 0 then NoGuessReward(s0) else s0;
      (s1.(events := s1.events + [RoundEnded(s1.currentWord, s1.scrambledWord), RoomUpdated],
           pendingTurns := s1.pendingTurns + 1),
       !hasSetter)
  }

  /** A scheduled `nextTurn` callback fires. */
  function FireNextTurn(s: RoomState, order: seq<ConnId>): (r: RoomState)
    requires OrderMembers(s) && IsPerm(order, IdSeq(s.players)) && s.pendingTurns > 0
  {
    NextTurn(s.(pendingTurns := s.pendingTurns - 1), order)
  }

  // ---------------------------------------------------------------- disconnect

  /** The player's entries leave the player list, the turn order and every table. */
  function RemovePlayer(s: RoomState, c: ConnId): (r: RoomState)
    ensures Ids(r.players) == Ids(s.players) - {c} && c !in r.turnOrder
    ensures OrderMembers(s) ==> OrderMembers(r)
    ensures Keyed(s) ==> Keyed(r)
  {
    IdsWithout(s.players, c);
    s.(players := PlayersWithout(s.players, c), turnOrder := Without(s.turnOrder, c),
       scores := s.scores - {c}, roundScores := s.roundScores - {c},
       achievements := s.achievements - {c}, streaks := s.streaks - {c})
  }

  /** `room.players[0].isHost = true`. */
  function AssignHost(s: RoomState): (r: RoomState)
    requires |s.players| > 0
    ensures |r.players| == |s.players| && r.players[0].isHost && IdSeq(r.players) == IdSeq(s.players) && Ids(r.players) == Ids(s.players)
    ensures OrderMembers(s) ==> OrderMembers(r)
    ensures Keyed(s) ==> Keyed(r)
  {
    IdsUpdate(s.players, 0, s.players[0].(isHost := true));
    s.(players := s.players[0 := s.players[0].(isHost := true)])
  }

  /**
   * The rest of disconnect for a room that still has players, as written:
   * the check whether the leaver held the turn reads the turn order after
   * the leaver was filtered out of it.
   */
  function Recover(s: RoomState, c: ConnId, order: seq<ConnId>): (r: RoomState)
    requires OrderMembers(s) && IsPerm(order, IdSeq(s.players))
  {
    var s1 :=
      if s.status != Playing then s
      else if |s.turnOrder| < 2 then EndGame(s)
      else
        var s2 := if s.currentPlayerIndex >= |s.turnOrder| then s.(currentPlayerIndex := 0) else s;
        if s2.turnOrder[s2.currentPlayerIndex] == c then NextTurn(ClearTimer(s2), order) else s2;
    s1.(events := s1.events + [PlayerLeft(c), RoomUpdated])
  }

  /**
   * The same step as intended: `heldTurn` says whether the leaver was at the
   * turn pointer before being removed, and the pointer has already been moved
   * back past the leaver's entries (Shifted), so that it designates the player
   * who followed the leaver. That player is handed the turn.
   */
  function RecoverIntended(s: RoomState, c: ConnId, heldTurn: bool, order: seq<ConnId>): (r: RoomState)
    requires OrderMembers(s) && IsPerm(order, IdSeq(s.players))
    requires heldTurn ==> s.currentPlayerIndex <= |s.turnOrder|
  {
    var s1 :=
      if s.status != Playing then s
      else if |s.turnOrder| < 2 then EndGame(s)
      else if heldTurn then HandOn(ClearTimer(s), order)
      else if s.currentPlayerIndex >= |s.turnOrder| then s.(currentPlayerIndex := 0)
      else s;
    s1.(events := s1.events + [PlayerLeft(c), RoomUpdated])
  }

  /**
   * The turn passes to the player at the pointer within the round; past the
   * end of the turn order the round ends as in `nextTurn`.
   */
  function HandOn(s: RoomState, order: seq<ConnId>): (r: RoomState)
    requires OrderMembers(s) && IsPerm(order, IdSeq(s.players))
    requires 2 <= |s.turnOrder| && s.currentPlayerIndex <= |s.turnOrder|
  {
    if s.currentPlayerIndex < |s.turnOrder| then
      if |s.players| < 2 then ToLobby(s) else BeginTurn(s)
    else NextTurn(s.(currentPlayerIndex := |s.turnOrder| - 1), order)
  }

  /** Where the turn pointer lands once `c`'s entries are filtered out of the turn order. */
  function Shifted(s: RoomState, c: ConnId): (k: nat)
    ensures k <= |Without(s.turnOrder, c)|
  {
    var i := if s.currentPlayerIndex <= |s.turnOrder| then s.currentPlayerIndex else |s.turnOrder|;
    WithoutBefore(s.turnOrder, c, i);
    |Without(s.turnOrder[..i], c)|
  }

  /** How a departure from a room ends. */
  datatype Departure =
    | Emptied    // the last player left: the room is deleted
    | Threw      // the leaver's session said host: the handler throws after moving the flag
    | Departed   // the recovery ran and the departure was announced

  /**
   * disconnect for a room the leaver's session names, as written; `wasHost`
   * is the session copy's host flag and `order` the shuffle of a round the
   * recovery starts.
   */
  function Leave(s: RoomState, c: ConnId, wasHost: bool, order: seq<ConnId>): (r: (RoomState, Departure))
    requires OrderMembers(s) && IsPerm(order, IdSeq(RemovePlayer(s, c).players))
  {
    var t := RemovePlayer(s, c);
    if |t.players| == 0 then (ClearTimer(t), Emptied)
    else if wasHost then (AssignHost(t), Threw)
    else (Recover(t, c, order), Departed)
  }

  /**
   * The same departure as intended: the host flag moves and the recovery
   * runs after it, with the turn check made before the removal and the
   * pointer kept on the same player (or on the leaver's successor). The second
   * component says whether the room was emptied.
   */
  function LeaveIntended(s: RoomState, c: ConnId, wasHost: bool, order: seq<ConnId>): (r: (RoomState, bool))
    requires OrderMembers(s) && IsPerm(order, IdSeq(RemovePlayer(s, c).players))
  {
    var t := RemovePlayer(s, c);
    if |t.players| == 0 then (ClearTimer(t), true)
    else (RecoverIntended(Handover(s, c, wasHost), c, HoldsTurn(s, c), order), false)
  }

  /** The room after the removal and the host hand-over, with the pointer shifted. */
  function Handover(s: RoomState, c: ConnId, wasHost: bool): (u: RoomState)
    requires |RemovePlayer(s, c).players| > 0
    ensures IdSeq(u.players) == IdSeq(RemovePlayer(s, c).players) && Ids(u.players) == Ids(s.players) - {c}
    ensures u.turnOrder == Without(s.turnOrder, c) && u.currentPlayerIndex <= |u.turnOrder|
    ensures OrderMembers(s) ==> OrderMembers(u)
    ensures Keyed(s) ==> Keyed(u)
  {
    var t := RemovePlayer(s, c);
    var handed := if wasHost then AssignHost(t) else t;
    handed.(currentPlayerIndex := Shifted(s, c))
  }

  /** Whether `c` holds the turn. */
  predicate HoldsTurn(s: RoomState, c: ConnId)
  {
    s.status == Playing && s.currentPlayerIndex < |s.turnOrder| && s.turnOrder[s.currentPlayerIndex] == c
  }
}
