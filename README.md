# Jumble game server: rooms, turns and rounds

This project models the game server of the jumble word game
(`project/server/index.js`). Players meet in rooms. Each turn, one player,
the word-setter, submits a word. The others see it scrambled and race to
guess it. Points depend on the order of the correct guesses. Five rounds
make a game, and in every round each player in the turn order sets one word.

The server keeps two module-level maps. `rooms` maps room ids to room
objects. `players` maps connection ids to a copy of the player taken at join
time, together with the room id. Both are fields of the class
`Server.Registry`. Each room is a `Rooms.Room` object whose methods change
its fields in place: the player list, the per-player tables (`scores`,
`roundScores`, `streaks`, `achievements`), the turn order and pointer, the
current word, the guess log and the timers.

Every room method comes with a pure reference function in module `Game`. It
computes the same step on a snapshot value, `Game.RoomState`. The method's
postcondition says that the new snapshot is that function of the old one.
The module `GameProps` proves what the server promises about those
functions:

- the tables stay keyed by exactly the players;
- the turn order only names players;
- the turn pointer is a live index while a game is played;
- the scoring, streak, hint, bonus, turn and round rules hold;
- the behaviour at each error path.

The messages the server emits are recorded in order, as an `events`
sequence in the room.

The source's external inputs become parameters:

- **Randomness.** Each `Math.random` draw is a nondeterministic choice. The
  turn order produced by a shuffle is a ghost result, stated to be a
  permutation.
- **Clock.** `Date.now()` is a `now` parameter.
- **Room ids.** The id from `uuidv4` is a parameter of room creation.
- **Timers.** A round timer is a handle. Firing it is an explicit method
  whose precondition is that the handle is still live. The `nextTurn`
  callbacks scheduled by `setTimeout` are counted in `pendingTurns`; the
  source never cancels them.

Modules:

- `Wrappers`: `Option` and map lookup with a default.
- `Text`: `toLowerCase().trim()`.
- `Hints`: `getWordHint` over a hint table given as a parameter.
- `Scoring`: `calculatePositionScore` and the hint cost.
- `Achievements`: `checkAchievements` on the list of held achievements.
- `Shuffle`: `shuffleArray` and `scrambleWord`.
- `Players`: the player list, `determineRoundWinner`, and the leaderboard sort.
- `Game`: the room snapshot, its invariants, and one function per handler or
  callback.
- `GameProps`: lemmas about `Game`.
- `Rooms`: the room class.
- `Server`: the registry of rooms and sessions, with the HTTP routes and the
  socket handlers.
- `Scenarios`: concrete runs that exhibit one finding in the registry.

## Model

| member | source | states |
|---|---|---|
| Text.LowerChar | project/server/index.js:314 | an upper-case letter becomes its own lower-case partner, other characters are kept, and white space stays white space |
| Text.NormalizeIgnoresCase | project/server/index.js:357 | a guess that differs from the typed word only in the case of its letters normalises to the same stored word |
| Text.TrimStartShape | project/server/index.js:314 | trimming the start drops a prefix made only of white space and leaves a result that is empty or starts with a non-space |
| Text.TrimEndShape | project/server/index.js:314 | trimming the end drops a suffix made only of white space and leaves a result that is empty or ends with a non-space |
| Text.NormalizeShape | project/server/index.js:357 | a normalised word is no longer than the input, has no upper-case letter, and neither starts nor ends with white space |
| Text.NormalizeIdempotent | project/server/index.js:314-357 | normalising twice is normalising once, so a guess typed exactly as the setter typed the word matches the stored word |
| Hints.DecimalRoundTrip | project/server/index.js:118 | the digits written for a word length read back as that length |
| Hints.WordHint | project/server/index.js:83-119 | the hint is never empty and is either the table's entry for the lower-cased word or the fallback |
| Hints.WordHintCases | project/server/index.js:118 | a word the table knows, with a non-empty entry, gets that entry; an unknown word gets the fallback |
| Hints.FallbackStatesLength | project/server/index.js:118 | the fallback reads "A word with N letters", where N is the word's length |
| Hints.WordHintIgnoresCase | project/server/index.js:118 | a word and its lower-case form get the same hint |
| Scoring.PositionScore | project/server/index.js:77-81 | the score is ten points per letter plus 10 for the first correct guess, 8 for the second and 5 for every later one; this contract is the formula itself, and the two lemmas below state what it means |
| Scoring.PositionScoreNonIncreasing | project/server/index.js:77-81 | a later position never scores more, and among the first three positions it scores strictly less |
| Scoring.PositionScorePositive | project/server/index.js:77-81 | every correct guess scores at least 5 |
| Scoring.PositionScoreExamples | project/server/index.js:77-81 | a five-letter word scores 60, 58, 55 and then 55 for every later guess |
| Scoring.AfterHint | project/server/index.js:424-427 | a hint takes 10 points, or the whole score when it is below 10 |
| Scoring.HintCostBounded | project/server/index.js:424-427 | a hint never costs more than 10 points and never raises the score |
| Achievements.UnlockedExactly | project/server/index.js:636-674 | first-correct is unlocked only when nothing is held, high-scorer only at a score of 100 or more, streak-3 and streak-5 only at exactly those streaks, each only when not yet held, and nothing is unlocked twice |
| Achievements.AfterCheckGrowsWithoutRepeats | project/server/index.js:676-677 | the stored list only grows, by appending, and never holds an achievement twice |
| Achievements.HeldNeverUnlockedAgain | project/server/index.js:649-674 | an achievement already held is never unlocked again |
| Shuffle.ShuffleArray | project/server/index.js:122-129 | the shuffled copy is a permutation of the input, which as a value is left unchanged |
| Shuffle.SwapFirstOther | project/server/index.js:74 | a rearrangement that differs from a word with two distinct letters |
| Shuffle.ScrambleWord | project/server/index.js:66-75 | the scramble is a permutation of the word's letters and differs from the word |
| Players.PlayersWithout | project/server/index.js:465 | the filter keeps exactly the players whose id differs, and never lengthens the list; order and multiplicity follow from the next three lemmas |
| Players.PlayersWithoutAppend | project/server/index.js:465 | the filter distributes over concatenation, so it keeps the players in order and each of them as often as before |
| Players.PlayersWithoutAll | project/server/index.js:465 | a list holding only the leaver filters to nothing |
| Players.PlayersWithoutFirst | project/server/index.js:465 | after the filter, the first player is the first one in join order whose id is not the leaver's |
| Players.IdsWithout | project/server/index.js:465 | after the filter, the ids are the old ids without the leaver's |
| Players.Without | project/server/index.js:466 | the filter keeps exactly the other entries of the turn order, and never lengthens it; order follows from the next lemmas |
| Players.WithoutAppend | project/server/index.js:466 | the filter distributes over concatenation |
| Players.WithoutAll | project/server/index.js:466 | a turn order holding only the leaver filters to nothing |
| Players.WithoutAt | project/server/index.js:466 | an entry that follows a run of the leaver's entries lands, after the filter, at the count of the other entries before that run |
| Players.WithoutSuccessor | project/server/index.js:466 | the player who followed the leaver sits, after the filter, at the count of the other entries before the leaver |
| Players.WithoutBefore | project/server/index.js:466 | the other entries before an index are at most all of them, and all of them when only the leaver follows |
| Players.WithoutNoSuccessor | project/server/index.js:466 | when only the leaver's entries follow the leaver, the others before it are all the others |
| Players.WithoutNowhere | project/server/index.js:489 | no position of the filtered turn order holds the leaver |
| Players.IndexOfId | project/server/index.js:599 | `find` locates the first player with the given id |
| Players.Credit | project/server/index.js:389 | crediting a player changes that player's score only, by the points given |
| Players.BestIndexIsFirstMaximum | project/server/index.js:571-590 | the chosen player has the highest round score, and every earlier player has a strictly lower one |
| Players.DetermineRoundWinner | project/server/index.js:571-590 | the running-maximum loop gives no winner exactly when there are no players, and otherwise the first player with the highest round score |
| Players.SortDescRanks | project/server/index.js:630 | the sort gives a list ordered by descending score that is a permutation of its input |
| Game.Initial | project/server/index.js:149-173 | a new room waits, has no players, is at round 0, has an empty turn order, and satisfies every invariant |
| Game.ZeroScores | project/server/index.js:288 | the round-score table is keyed by exactly the players, all at 0 |
| Game.LeaderboardEntries | project/server/index.js:623-629 | one leaderboard entry per player |
| Game.JoinRefusal | project/server/index.js:227-235 | a join is refused as full exactly when the room is full; as a taken name exactly when it is not full and the name is in use; otherwise it is accepted |
| Game.Correct | project/server/index.js:359-400 | a correct guess keeps every table keyed by exactly the players and the turn order among them |
| Game.SubmitGuess | project/server/index.js:344-409 | every guess keeps the tables keyed by the players and the turn order among them |
| Game.Incorrect | project/server/index.js:401-404 | a wrong guess keeps the tables keyed by the players |
| Game.RemovePlayer | project/server/index.js:465-470 | the leaver's id leaves the players and the turn order, and the table keys and turn-order membership are preserved |
| Game.AssignHost | project/server/index.js:477-478 | the first remaining player becomes host, and the ids and their order are unchanged |
| GameProps.EndGameFinishes | project/server/index.js:619-621 | ending the game finishes the room, cancels its round timer and keeps every invariant |
| GameProps.LeaderboardRanksPlayers | project/server/index.js:623-630 | the leaderboard has one entry per player with that player's name and total score, in descending score order |
| GameProps.StartNewRoundKeeps | project/server/index.js:509-543 | starting a turn keeps every invariant and leaves a live turn pointer |
| GameProps.StartNewRoundShape | project/server/index.js:509-527 | with fewer than two players the room returns to waiting; otherwise the word and guess log are cleared, and exactly at index 0 the turn order is re-shuffled and every round score reset to 0 |
| GameProps.NextTurnKeeps | project/server/index.js:545-569 | `nextTurn` keeps every invariant and leaves a live turn pointer |
| GameProps.NextTurnKeepsWithinRound | project/server/index.js:551-567 | advancing within a round keeps every invariant |
| GameProps.NextTurnKeepsAtWrap | project/server/index.js:553-567 | wrapping to a new round keeps every invariant |
| GameProps.NextTurnEndsShortGame | project/server/index.js:546-548 | with fewer than two in the turn order the game finishes at the same round |
| GameProps.NextTurnWithinRound | project/server/index.js:551-567 | inside a round the pointer moves up by one, and the round, the turn order and the round scores stay |
| GameProps.NextTurnWraps | project/server/index.js:553-565 | past the last player the round goes up by one and the pointer returns to 0; past round 5 the game finishes, otherwise a new order is drawn and every round score is reset to 0 |
| GameProps.NextTurnAnnouncesWinner | project/server/index.js:555-556 | the round winner is announced first when a round completes |
| GameProps.JoinKeeps | project/server/index.js:237-255 | a join keeps every invariant and does not break a live turn pointer |
| GameProps.JoinKeyed | project/server/index.js:248-252 | the joiner is keyed in every table |
| GameProps.JoinAddsPlayer | project/server/index.js:237-255 | the joiner is appended, is host exactly when the room was empty, starts at zero and empty in every table, and enters the turn order only when no game is being played |
| GameProps.StartGameKeeps | project/server/index.js:284-291 | starting a game keeps every invariant and leaves a live turn pointer |
| GameProps.StartGameBeginsRoundOne | project/server/index.js:279-291 | the start is refused exactly when fewer than two players are present, and then nothing changes; otherwise the game plays round 1 from index 0 with the drawn order and its round scores at 0 |
| GameProps.SubmitWordKeeps | project/server/index.js:299-342 | a word submission keeps every invariant |
| GameProps.SubmitWordAcceptance | project/server/index.js:302-324 | a word is accepted exactly from the turn holder during a game when its normalised form has at least 3 letters, not all the same; a refusal changes nothing, and the failing scramble only leaves the word stored |
| GameProps.SubmitWordArmsTimer | project/server/index.js:320-336 | an accepted word is stored normalised with its scramble, hint and start time, the guess log is cleared, and a fresh round timer is armed |
| GameProps.RecordCorrectKeeps | project/server/index.js:359-372 | recording a correct guess keeps every invariant |
| GameProps.AllGuessedBonusKeeps | project/server/index.js:383-400 | the completion bonus keeps every invariant |
| GameProps.CorrectKeeps | project/server/index.js:359-400 | a correct guess keeps every invariant |
| GameProps.SubmitGuessKeeps | project/server/index.js:344-409 | every guess keeps every invariant and does not break a live turn pointer |
| GameProps.RecordCorrectEffect | project/server/index.js:360-372 | a correct guess is logged with its time, adds the position score to the guesser's total and round score, raises the streak by one, and checks the achievements |
| GameProps.AllGuessedBonusEffect | project/server/index.js:383-399 | the completion bonus gives the setter the second-place score, cancels the round timer and schedules the next turn |
| GameProps.CorrectGuessScores | project/server/index.js:357-372 | a normalised guess equal to the word scores the position of the guess in the log and raises the streak by exactly one |
| GameProps.CompletionPaysSetter | project/server/index.js:383-399 | when the guess log reaches one less than the number of players, the setter gains the second-place score and the round timer is cancelled |
| GameProps.PartialGuessPaysSetterNothing | project/server/index.js:383-384 | before that point the setter's score, the timers and the scheduled turns are unchanged |
| GameProps.GuessTouchesTwoScores | project/server/index.js:366-389 | a guess changes no score other than the guesser's and the setter's |
| GameProps.CorrectTouchesTwoScores | project/server/index.js:366-389 | a correct guess changes no score other than the guesser's and the setter's |
| GameProps.WrongGuessResetsStreak | project/server/index.js:401-404 | a wrong guess resets the streak to 0 and changes no score |
| GameProps.GuessRefusals | project/server/index.js:349-355 | outside a game a guess is ignored, and the setter's own guess is refused; both change nothing |
| GameProps.SubmitGuessShape | project/server/index.js:344-409 | a guess never changes the status, the turn, the word or the players |
| GameProps.RepeatedGuessOverflowsLog | project/server/index.js:359-361 | the same player guessing twice is logged and scored twice, so the log outgrows the number of guessers |
| GameProps.CorrectGuessLogged | project/server/index.js:359-364 | a correct guess is appended to the log and scores its position |
| GameProps.NormalizeBlank | project/server/index.js:357 | a guess of a single space normalises to the empty word |
| GameProps.BlankGuessBeforeWordScores | project/server/index.js:357-364 | before a word is submitted, a blank guess matches the empty word and scores |
| GameProps.HintKeeps | project/server/index.js:411-437 | a hint keeps every invariant |
| GameProps.HintCharges | project/server/index.js:416-427 | a hint is charged exactly to a player other than the setter during a game; the setter is refused, and nothing changes unless it is charged |
| GameProps.HintDeducts | project/server/index.js:424-427 | a hint takes at most 10 points from the total and from the round score, floored at zero, and no other player's score changes |
| GameProps.CapacityNaNAccepted | project/server/index.js:140-145 | the capacity check as written accepts a maximum that is not a number |
| GameProps.CapacityChecksAgreeOnNumbers | project/server/index.js:143-145 | on numbers, the check as written and the intended check agree |
| GameProps.NaNCapacityNeverFull | project/server/index.js:227 | a room whose maximum is not a number is never full |
| GameProps.RoundTimerKeeps | project/server/index.js:592-617 | the round timer firing keeps every invariant |
| GameProps.RoundTimerSettles | project/server/index.js:592-613 | the fired timer is no longer live; the callback throws exactly when no setter is at the pointer; otherwise a next turn is scheduled; the setter gains 5 points when nobody guessed, and no score changes otherwise |
| GameProps.NextTurnCallbackKeeps | project/server/index.js:611-613 | a scheduled `nextTurn` keeps every invariant and leaves a live turn pointer |
| GameProps.RemoveKeeps | project/server/index.js:465-470 | removing a player keeps every invariant |
| GameProps.AssignHostKeeps | project/server/index.js:477-478 | reassigning the host keeps every invariant |
| GameProps.RecoverRestoresPointer | project/server/index.js:482-494 | the playing-state recovery keeps every invariant, and ends the game when fewer than two remain in the turn order |
| GameProps.LeaveKeeps | project/server/index.js:465-480 | a departure keeps every invariant, and empties the room exactly when the leaver was its only player |
| GameProps.LeaveIntendedKeeps | project/server/index.js:465-494 | the intended departure keeps every invariant, empties the room exactly when the leaver was alone, and leaves a live turn pointer in a room still playing |
| GameProps.RecoverIntendedRestoresPointer | project/server/index.js:482-494 | the intended recovery keeps every invariant and leaves a live turn pointer |
| GameProps.SetterDepartureDoesNotAdvance | project/server/index.js:486-492 | as written, when the setter leaves, the word, guesses, round timer and round all stay, and the turn does not move on |
| GameProps.SetterDepartureAdvancesIntended | project/server/index.js:486-492 | checked before the removal, the setter's departure cancels the round timer and hands the turn, in the same round, to the player who followed the setter in the turn order, with a fresh word and guess log |
| GameProps.LastSetterDepartureEndsRoundIntended | project/server/index.js:486-492 | when nobody followed the departing setter, the round ends: the winner is announced, and the next round starts at index 0 of a fresh shuffle with the round scores at 0, or past round 5 the game finishes |
| GameProps.DepartureKeepsTurnIntended | project/server/index.js:466 | any other player's departure leaves the turn, the word, its guesses, its round timer and the round as they were, with the pointer following the setter to its new index |
| GameProps.EarlierDepartureShiftsTurn | project/server/index.js:466 | as written, the departure of a player ahead of the setter moves the next player under the unchanged pointer while the setter's word stands; as intended the setter keeps the turn |
| GameProps.HandoverKeeps | project/server/index.js:465-478 | removing the leaver and passing the host flag keeps every invariant and the round, the word, the timers and the events, and the pointer lands at the number of other entries before it |
| GameProps.HandOnKeeps | project/server/index.js:509-567 | handing the turn on keeps every invariant and a live turn pointer |
| GameProps.HandOnFrame | project/server/index.js:509-567 | handing the turn on keeps the player list and issues no timer |
| GameProps.RecoveryHandsOnWithinRound | project/server/index.js:486-492 | with the pointer on a remaining player, the intended recovery gives that player a fresh turn in the same round and cancels the round timer |
| GameProps.RecoveryEndsRound | project/server/index.js:486-492 | with the pointer past the turn order, the intended recovery ends the round as `nextTurn` does |
| GameProps.RecoverIntendedFrame | project/server/index.js:486-492 | the intended recovery keeps the player list, issues no timer, and cancels the round timer when the setter left |
| GameProps.HostPassesToFirstRemaining | project/server/index.js:465-478 | as written, the host flag passes to the first player in join order who is not the leaver |
| GameProps.HostPassesToFirstRemainingIntended | project/server/index.js:465-478 | the same holds for the intended departure |
| GameProps.HostDepartureStallsGame | project/server/index.js:477-480 | as written, the host leaving a two-player game throws after the host flag moves, leaving a game in play whose turn pointer is past the turn order |
| GameProps.StalledRoomTimerThrows | project/server/index.js:595 | the round timer of such a room throws |
| GameProps.HostDepartureEndsGameIntended | project/server/index.js:477-494 | without the exception, the same departure finishes the game with a live pointer |
| Rooms.Room.constructor | project/server/index.js:149-173 | the new room object is the initial room |
| Rooms.Room.ClearGameTimer | project/server/index.js:473 | `clearTimeout(room.gameTimer)` |
| Rooms.Room.Join | project/server/index.js:227-255 | the refusal is the join refusal; an accepted join is the join step, and a refusal changes nothing |
| Rooms.Room.AddPlayer | project/server/index.js:237-255 | appends the player and its table entries |
| Rooms.Room.StartNewRound | project/server/index.js:509-543 | the in-place `startNewRound` with the drawn order |
| Rooms.Room.ToLobby | project/server/index.js:510-514 | the in-place return to the lobby |
| Rooms.Room.BeginTurn | project/server/index.js:524-543 | the in-place start of a turn for the player at the pointer |
| Rooms.Room.Reshuffle | project/server/index.js:287-288 | the turn order becomes a permutation of the players, with round scores at 0 |
| Rooms.Room.EndGame | project/server/index.js:619-634 | the in-place `endGame` |
| Rooms.Room.NextTurn | project/server/index.js:545-569 | the in-place `nextTurn` |
| Rooms.Room.StartGame | project/server/index.js:279-292 | the in-place game start from the host |
| Rooms.Room.SubmitWord | project/server/index.js:302-336 | the in-place word submission; an accepted word's scramble is a permutation of it that differs from it |
| Rooms.Room.SubmitGuess | project/server/index.js:349-404 | the in-place guess |
| Rooms.Room.RecordCorrect | project/server/index.js:360-372 | logs and scores a correct guess and returns its position score |
| Rooms.Room.CheckAchievements | project/server/index.js:636-680 | appends the newly unlocked achievements and announces them |
| Rooms.Room.AllGuessedBonus | project/server/index.js:383-400 | pays the setter's completion bonus and cancels the round timer |
| Rooms.Room.RewardSetter | project/server/index.js:387-389 | credits the setter in both tables and in the player list |
| Rooms.Room.UseHint | project/server/index.js:416-432 | the in-place hint |
| Rooms.Room.FireRoundTimer | project/server/index.js:592-617 | the in-place `endRound`, reporting whether it throws |
| Rooms.Room.NoGuessReward | project/server/index.js:594-604 | the setter's no-guess bonus |
| Rooms.Room.FireNextTurn | project/server/index.js:611-613 | runs one scheduled `nextTurn` |
| Rooms.Room.RemovePlayer | project/server/index.js:465-470 | the in-place filters and deletions |
| Rooms.Room.AssignHost | project/server/index.js:477-478 | the in-place host reassignment |
| Rooms.Room.Recover | project/server/index.js:482-497 | the in-place playing-state recovery as written |
| Rooms.Room.RecoverIntended | project/server/index.js:482-497 | the in-place recovery with the turn check made before the removal |
| Rooms.Room.HandOn | project/server/index.js:486-492 | the in-place hand-on of the turn to the player at the pointer, or the end of the round |
| Rooms.Room.Leave | project/server/index.js:465-497 | the room's part of a departure as written |
| Rooms.Room.LeaveIntended | project/server/index.js:465-497 | the room's part of a departure as intended |
| Server.Registry.constructor | project/server/index.js:31-32 | both maps start empty |
| Server.Registry.CreateRoom | project/server/index.js:137-176 | a maximum outside 2 to 8 is refused and nothing changes; otherwise a fresh initial room is stored under the id given, with a missing difficulty set to medium |
| Server.Registry.PublicRooms | project/server/index.js:183-193 | lists exactly the public rooms that are waiting, each with its id, name, player count, maximum and difficulty |
| Server.Registry.JoinRoom | project/server/index.js:219-256 | an unknown room is reported and nothing changes; otherwise a refusal changes nothing, and an accepted join updates the room and stores the session copy, marked host exactly when the room was empty |
| Server.Registry.StartGame | project/server/index.js:269-292 | only a connection whose session copy says host can start, and a refused start changes nothing; otherwise the room's game start runs |
| Server.Registry.SubmitWord | project/server/index.js:299-336 | the room's word submission, with the hint looked up for the normalised word |
| Server.Registry.WordRoom | project/server/index.js:302-336 | the room's part of submit-word; an accepted word's scramble is a permutation of the stored word that differs from it |
| Server.Registry.SubmitGuess | project/server/index.js:344-409 | the room's guess, with the points also added to the connection's session copy |
| Server.Registry.UseHint | project/server/index.js:411-437 | the room's hint, with the session copy charged exactly when the room charges the player |
| Server.Registry.HintRoom | project/server/index.js:424-432 | the room's part of a hint |
| Server.Registry.FireRoundTimer | project/server/index.js:334-336 | a round timer of a stored room fires |
| Server.Registry.FireNextTurn | project/server/index.js:397-399 | a scheduled `nextTurn` of a stored room fires |
| Server.Registry.OthersKept | project/server/index.js:31 | a step that changes one room and keeps the others keeps the registry valid |
| Server.Registry.LeaveRoom | project/server/index.js:463-480 | the room's departure as written, and the room is deleted exactly when it was emptied |
| Server.Registry.Disconnect | project/server/index.js:457-506 | an unknown connection changes nothing, and a session for a missing room is dropped; otherwise the departure runs as written, and when it throws the session is kept |
| Server.Registry.LeaveRoomIntended | project/server/index.js:463-494 | the room's departure as intended, and the room is deleted exactly when it was emptied |
| Server.Registry.DisconnectIntended | project/server/index.js:457-506 | the intended departure always drops the session; when the host hands over, the heir's own session copy is marked host |
| Server.Registry.PutSession | project/server/index.js:256 | `players.set` |
| Server.Registry.DropSession | project/server/index.js:501 | `players.delete`, marking the heir's session host first in the intended version |
| Scenarios.WithoutAnn | project/server/index.js:465 | filtering the host out of a room of three keeps the other two in order |
| Scenarios.HostLeavesRoomOfThree | project/server/index.js:477-479 | as written, the host leaving a room of three throws, after the next player became host in the room |
| Scenarios.HostLeavesRoomOfThreeIntended | project/server/index.js:477-478 | as intended, the same departure completes with the same new host |
| Scenarios.RoomOfTwo | project/server/index.js:137-256 | a created room joined by two players holds them, with their session copies |
| Scenarios.RoomOfThree | project/server/index.js:219-256 | a third player has joined |
| Scenarios.HostLeaves | project/server/index.js:457-480 | after the host disconnects, the room's first player is the new host but that player's session copy is not |
| Scenarios.HostHandoverAsWritten | project/server/index.js:274-277 | so the new host's start-game is refused as not from the host |
| Scenarios.PromotedHeir | project/server/index.js:478 | with the intended departure, the heir's session copy is marked host |
| Scenarios.HostLeavesIntended | project/server/index.js:457-501 | after the intended departure, the new host's session copy says host |
| Scenarios.HostHandoverIntended | project/server/index.js:274-292 | and the new host starts the game |

## Left out

- HTTP and sockets: Express, CORS, `/health`, `/api/room/:id`, the static route and `server.listen` are not modelled. Nor are socket rooms, `socket.join` and console logging. Emitted messages are recorded as events in the room, without their full payloads; the `room-updated` payload is the room itself and is recorded as a bare marker.
- Timer delays: a round timer is a handle that is live until it fires or is cleared, and the 2-second and 3-second `nextTurn` delays are a counter. Which pending callback fires first is left to the caller.
- `Math.random`, `Date.now` and `uuidv4`: shuffles are nondeterministic; the time and the room id are parameters.
- The word categories and `getAllWords` are not modelled. The hint table is a parameter of `Hints.WordHint`.
- `toLowerCase` is modelled on the letters A to Z only. Unicode case mapping is not.
- String lengths: the source measures strings in UTF-16 code units (`split('')` in `scrambleWord`, `word.length` in the hint, the three-letter minimum of submit-word, and the word length in both position scores). A Dafny `string` holds Unicode scalar values, so for a word with a character outside the Basic Multilingual Plane (an emoji, say) the model's length is smaller: such a word can be refused by the model and accepted by the source, scrambled differently, and scored or hinted with a different count. Words of Basic Multilingual Plane characters agree.
- Hints.WordHint: the source's hint table is an object literal, so a word such as `constructor` or `__proto__` finds an inherited property and the hint is that property rather than the fallback. The model's table is a map holding only the literal's own entries.
- `timePerRound` is an integer input: its `parseInt` is not modelled. `parseInt` of the maximum is modelled only as a number or "not a number".
- A guess or a hint sent to a room the connection is not in is not modelled: the model leaves the room unchanged and credits nothing. In the source, such a hint writes `NaN` into the room's `scores` and `roundScores` under the connection's id and charges the session copy. Such a correct guess does more:
  - It is appended to `correctGuesses`, so it counts toward the all-guessed completion. It can pay the setter's bonus, cancel the round timer and schedule `nextTurn`, which ends the turn.
  - `streaks` gets 1 for the connection, and a wrong guess sets it to 0.
  - `checkAchievements` stores first-correct, and any other unlocked achievement, for the connection.
  - `scores` and `roundScores` get `NaN`, and the session copy is credited.
- Players.SortDesc: `Array.prototype.sort` is modelled as a stable insertion sort; only the ordering and the permutation are stated.
- The listing order: `Server.Registry.PublicRooms` returns a set; the source's order is the map's insertion order.
- The server process ending: a callback that throws is reported by a `crashed` flag, and the model says nothing about the state afterwards.
- Player fields that no rule reads (`avatar`, the per-player `achievements`, `streak` and `powerUps`), the room's `powerUps`, the achievement display texts and `timeLeft` in submit-guess are not modelled.
- Shuffle.ScrambleWord: when the first draw returns the word, one fixed different rearrangement stands for the unbounded redraws, so not every rearrangement is reachable after a retry. A word whose letters are all the same makes the source recurse until the stack overflows. The handler catches that error after the word was stored; `Game.SubmitWord` models exactly that.
- `send-message` has no state and is not modelled.
- Timer callbacks of a room that was deleted run on a room object the registry no longer holds; they are modelled at the room level only.
- The room's fields are grouped into three records in `Rooms.Room`; `State()` flattens them.
- The turn order holds player objects in the source and ids in the model; only the id and the name of its entries are read, and the name is looked up in the player list. join-room checks only names, so one connection can join the same room twice under two names. Then `Players.NameOf` gives the first entry's name. On that connection's turn for its second entry, the new-round message of `Game.BeginTurn` carries that first name, where the source announces the entry's own second name.

## Findings

| source | as written | input that shows it | evidently intended | confidence | as-written member | corrected member |
|---|---|---|---|---|---|---|
| project/server/index.js:489 | the turn check reads the turn order after the leaver was filtered out, so it never holds | the word-setter of a game of three disconnects while not host | the word-setter's departure cancels the round timer and hands the turn to the player who followed the setter, or ends the round when the setter was last | not executed | GameProps.SetterDepartureDoesNotAdvance | GameProps.SetterDepartureAdvancesIntended |
| project/server/index.js:466 | the filter moves every entry after the leaver down one index, but the turn pointer is not lowered | turn order [a, b, x, d] with `x` setting and the pointer at 2; `b` disconnects, and the pointer now designates `d` while `x`'s word stands | the setter keeps the turn, at its new index | not executed | GameProps.EarlierDepartureShiftsTurn | GameProps.DepartureKeepsTurnIntended |
| project/server/index.js:479 | `roomId` is not defined in the disconnect handler, so the log line throws after the host flag moved; recovery, broadcasts and `players.delete` are skipped | the host of a two-player game, the last in the turn order, disconnects: the game stays in play with the pointer past the turn order, and its round timer then throws | the departure completes: the game ends when fewer than two remain | not executed | GameProps.HostDepartureStallsGame | GameProps.HostDepartureEndsGameIntended |
| project/server/index.js:478 | the new host is flagged in the room's player list only; start-game reads the session copy, which still says not host | host Ann leaves a waiting room with Ben and Dee; Ben's start-game is refused | the new host can start the game | not executed | Scenarios.HostHandoverAsWritten | Scenarios.HostHandoverIntended |
| project/server/index.js:140-145 | a maximum that `parseInt` turns into `NaN` passes both comparisons, and the room is never full | create-room with `maxPlayers` "many" | a maximum that is not a number in 2 to 8 is refused | not executed | GameProps.CapacityNaNAccepted | GameProps.CapacityChecksAgreeOnNumbers |
