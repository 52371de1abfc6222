/**
 * The server's two module-level maps (project/server/index.js): `rooms`,
 * from room id to room object, and `players`, from connection id to the
 * session record that join-room stores, a copy of the player taken at join
 * time together with the room id. Each HTTP route and socket handler that
 * reads or writes them is a method; room-level work is delegated to the
 * room object.
 */
module Server {
  import opened Wrappers
  import opened Scoring
  import opened Shuffle
  import opened Players
  import opened Game
  import opened GameProps
  import opened Rooms
  import opened Text
  import opened Hints

  /** An entry of the `players` map: `{ ...player, roomId }` taken at join time. */
  datatype Session = Session(name: string, isHost: bool, score: nat, roomId: RoomId)

  /** An entry of the public room listing. */
  datatype Listing = Listing(id: RoomId, name: string, players: nat, maxPlayers: Option<int>, difficulty: string)

  /** `difficulty || 'medium'`: a missing or empty difficulty becomes medium. */
  function DifficultyOrDefault(d: Option<string>): string
  {
    if d.None? || d.value == "" then "medium" else d.value
  }

  function ListingOf(r: Room): Listing
    reads r
  {
    Listing(r.config.id, r.config.name, |r.players|, r.config.maxPlayers, r.config.difficulty)
  }

  class Registry {
    var rooms: map<RoomId, Room>
    var sessions: map<ConnId, Session>

    /** Distinct ids hold distinct room objects, each stored under its own id and keeping the room invariant. */
    ghost predicate Valid()
      reads this`rooms, rooms.Values
    {
      && (forall a, b :: a in rooms && b in rooms && a != b ==> rooms[a] != rooms[b])
      && (forall a :: a in rooms ==> rooms[a].config.id == a && Inv(rooms[a].State()))
    }

    /** The room stored under `id`, as a frame. */
    function At(id: RoomId): set<Room>
      reads this
    {
      if id in rooms then {rooms[id]} else {}
    }

    constructor ()
      ensures Valid() && rooms == map[] && sessions == map[]
    {
      rooms := map[];
      sessions := map[];
    }

    // ------------------------------------------------------------ HTTP routes

    /**
     * POST /api/create-room. `id` is the generated room id; a capacity outside
     * 2..8 is refused. An id already in use is overwritten, as `rooms.set` does.
     */
    method CreateRoom(id: RoomId, name: string, isPublic: bool, timePerRound: int,
                      maxPlayers: Option<int>, difficulty: Option<string>) returns (err: Option<ErrorKind>)
      requires Valid()
      modifies this
      ensures Valid() && sessions == old(sessions)
      ensures err == if AcceptsCapacity(maxPlayers) then None else Some(InvalidConfig)
      ensures err.Some? ==> rooms == old(rooms)
      ensures err.None? ==> id in rooms && fresh(rooms[id]) && rooms == old(rooms)[id := rooms[id]]
      ensures err.None? ==>
                rooms[id].State() == Initial(Config(id, name, isPublic, timePerRound, maxPlayers, DifficultyOrDefault(difficulty)))
    {
      if maxPlayers.Some? && (maxPlayers.value > 8 || maxPlayers.value < 2) {
        return Some(InvalidConfig);
      }
      var room := new Room(Config(id, name, isPublic, timePerRound, maxPlayers, DifficultyOrDefault(difficulty)));
      rooms := rooms[id := room];
      err := None;
    }

    /** GET /api/rooms: every public room still waiting for players, and no other. */
    function PublicRooms(): (r: set<Listing>)
      requires Valid()
      reads this, rooms.Values
      ensures forall a :: a in rooms && rooms[a].config.isPublic && rooms[a].status == Waiting ==> ListingOf(rooms[a]) in r
      ensures forall l :: l in r ==> l.id in rooms && rooms[l.id].config.isPublic && rooms[l.id].status == Waiting
                                     && l == ListingOf(rooms[l.id])
    {
      set a | a in rooms && rooms[a].config.isPublic && rooms[a].status == Waiting :: ListingOf(rooms[a])
    }

    // ------------------------------------------------------------ socket handlers

    /** join-room from connection `c`: the room lookup, then the room's own guards; the session copy is stored. */
    method JoinRoom(c: ConnId, id: RoomId, name: string) returns (err: Option<ErrorKind>)
      requires Valid()
      modifies this`sessions, At(id)
      ensures Valid() && rooms == old(rooms)
      ensures id !in rooms ==> err == Some(RoomNotFound) && sessions == old(sessions)
      ensures id in rooms ==>
                && err == JoinRefusal(old(rooms[id].State()), name)
                && rooms[id].State() == (if err.None? then Joined(old(rooms[id].State()), c, name) else old(rooms[id].State()))
                && sessions == (if err.None? then old(sessions)[c := Session(name, |old(rooms[id].players)| == 0, 0, id)]
                                else old(sessions))
    {
      if id !in rooms {
        return Some(RoomNotFound);
      }
      var room := rooms[id];
      var isHost := |room.players| == 0;
      ghost var s := room.State();
      err := room.Join(c, name);
      if err.None? {
        JoinKeeps(s, c, name);
        sessions := sessions[c := Session(name, isHost, 0, id)];
      }
    }

    /**
     * start-game from connection `c`. The host check reads the session copy,
     * not the room's player record, and does not ask whether `c` belongs to
     * the room.
     */
    method StartGame(c: ConnId, id: RoomId) returns (err: Option<ErrorKind>, ghost first: seq<ConnId>, ghost order: seq<ConnId>)
      requires Valid()
      modifies At(id)
      ensures Valid()
      ensures !(id in rooms && c in sessions && sessions[c].isHost) ==>
                err == Some(OnlyHost) && (id in rooms ==> rooms[id].State() == old(rooms[id].State()))
      ensures id in rooms && c in sessions && sessions[c].isHost ==>
                && IsPerm(first, IdSeq(old(rooms[id].players))) && IsPerm(order, IdSeq(old(rooms[id].players)))
                && (rooms[id].State(), err) == Game.StartGame(old(rooms[id].State()), first, order)
    {
      first, order := [], [];
      if id !in rooms || c !in sessions || !sessions[c].isHost {
        return Some(OnlyHost), first, order;
      }
      var room := rooms[id];
      ghost var s := room.State();
      err, first, order := room.StartGame();
      StartGameKeeps(s, first, order);
      OthersKept(id);
    }

    /**
     * submit-word from connection `c`; `hints` is the table `getWordHint`
     * looks the normalised word up in, and `now` the clock.
     */
    method SubmitWord(c: ConnId, id: RoomId, word: string, hints: map<string, string>, now: int)
      returns (err: Option<ErrorKind>, scrambled: string)
      requires Valid()
      modifies At(id)
      ensures Valid()
      ensures id !in rooms ==> err == Some(NotInProgress)
      ensures id in rooms ==>
                var hint := WordHint(Normalize(word), hints);
                (rooms[id].State(), err) == Game.SubmitWord(old(rooms[id].State()), c, word, hint, now, scrambled)
      ensures id in rooms && err.None? ==> IsPerm(scrambled, rooms[id].round.currentWord) && scrambled != rooms[id].round.currentWord
    {
      if id !in rooms {
        return Some(NotInProgress), "";
      }
      err, scrambled := WordRoom(c, id, word, WordHint(Normalize(word), hints), now);
    }

    /** The room part of submit-word, with the hint already looked up. */
    method WordRoom(c: ConnId, id: RoomId, word: string, hint: string, now: int)
      returns (err: Option<ErrorKind>, scrambled: string)
      requires Valid() && id in rooms
      modifies At(id)
      ensures Valid()
      ensures (rooms[id].State(), err) == Game.SubmitWord(old(rooms[id].State()), c, word, hint, now, scrambled)
      ensures err.None? ==> IsPerm(scrambled, rooms[id].round.currentWord) && scrambled != rooms[id].round.currentWord
    {
      var room := rooms[id];
      ghost var s := room.State();
      err, scrambled := room.SubmitWord(c, word, hint, now);
      SubmitWordKeeps(s, c, word, hint, now, scrambled);
      OthersKept(id);
    }

    /** submit-guess from connection `c`; the session copy is credited with the guess's points. */
    method SubmitGuess(c: ConnId, id: RoomId, guess: string, now: int) returns (err: Option<ErrorKind>, ghost points: nat)
      requires Valid()
      modifies this`sessions, At(id)
      ensures Valid() && rooms == old(rooms)
      ensures id !in rooms || c !in old(sessions) ==> err == None && sessions == old(sessions)
      ensures id in rooms && c in old(sessions) ==>
                && (rooms[id].State(), err, points) == Game.SubmitGuess(old(rooms[id].State()), c, old(sessions[c].name), guess, now)
                && sessions == old(sessions)[c := old(sessions[c]).(score := old(sessions[c].score) + points)]
    {
      points := 0;
      if id !in rooms || c !in sessions {
        return None, points;
      }
      var room := rooms[id];
      var session := sessions[c];
      ghost var s := room.State();
      var gained;
      err, gained := room.SubmitGuess(c, session.name, guess, now);
      SubmitGuessKeeps(s, c, session.name, guess, now);
      PutSession(c, session.(score := session.score + gained));
      points := gained;
    }

    /** use-hint from connection `c`; the session copy is charged as the room's tables are. */
    method UseHint(c: ConnId, id: RoomId) returns (err: Option<ErrorKind>, ghost charged: bool)
      requires Valid()
      modifies this`sessions, At(id)
      ensures Valid() && rooms == old(rooms)
      ensures id !in rooms || c !in old(sessions) ==> err == None && sessions == old(sessions)
      ensures id in rooms && c in old(sessions) ==>
                && (rooms[id].State(), err, charged) == Game.UseHint(old(rooms[id].State()), c)
                && sessions == if charged then old(sessions)[c := old(sessions[c]).(score := AfterHint(old(sessions[c].score)))]
                               else old(sessions)
    {
      charged := false;
      if id !in rooms || c !in sessions {
        return None, charged;
      }
      var session := sessions[c];
      var deducted;
      err, deducted := HintRoom(c, id);
      if deducted {
        PutSession(c, session.(score := AfterHint(session.score)));
      }
      charged := deducted;
    }

    /** The room part of use-hint. */
    method HintRoom(c: ConnId, id: RoomId) returns (err: Option<ErrorKind>, charged: bool)
      requires Valid() && id in rooms
      modifies At(id)
      ensures Valid()
      ensures (rooms[id].State(), err, charged) == Game.UseHint(old(rooms[id].State()), c)
    {
      var room := rooms[id];
      ghost var s := room.State();
      err, charged := room.UseHint(c);
      HintKeeps(s, c);
      OthersKept(id);
    }

    // ------------------------------------------------------------ timer callbacks

    /** The round timer `h` of room `id` fires; `crashed` means the callback throws and the process ends. */
    method FireRoundTimer(id: RoomId, h: nat) returns (crashed: bool)
      requires Valid() && id in rooms && h in rooms[id].timers.liveTimers
      modifies At(id)
      ensures Valid()
      ensures (rooms[id].State(), crashed) == Game.FireRoundTimer(old(rooms[id].State()), h)
    {
      var room := rooms[id];
      ghost var s := room.State();
      crashed := room.FireRoundTimer(h);
      RoundTimerKeeps(s, h);
      OthersKept(id);
    }

    /** A scheduled `nextTurn` of room `id` fires. */
    method FireNextTurn(id: RoomId) returns (ghost order: seq<ConnId>)
      requires Valid() && id in rooms && rooms[id].timers.pendingTurns > 0
      modifies At(id)
      ensures Valid()
      ensures IsPerm(order, IdSeq(old(rooms[id].players)))
      ensures rooms[id].State() == Game.FireNextTurn(old(rooms[id].State()), order)
    {
      var room := rooms[id];
      ghost var s := room.State();
      order := room.FireNextTurn();
      NextTurnCallbackKeeps(s, order);
    }

    // ------------------------------------------------------------ disconnect

    /** After room `id` alone has changed, the other rooms still keep their invariants. */
    twostate lemma OthersKept(id: RoomId)
      requires old(Valid()) && rooms.Keys <= old(rooms.Keys) && forall a :: a in rooms ==> rooms[a] == old(rooms[a])
      requires forall a :: a in rooms && a != id ==> unchanged(rooms[a])
      requires id in rooms ==> Inv(rooms[id].State())
      ensures Valid()
    {
    }

    /**
     * The room part of disconnect, as written: `c` leaves room `id`
     * (Game.Leave), and an emptied room is deleted from the map.
     */
    method LeaveRoom(id: RoomId, c: ConnId, wasHost: bool) returns (outcome: Departure, ghost order: seq<ConnId>)
      requires Valid() && id in rooms
      modifies this`rooms, At(id)
      ensures Valid() && sessions == old(sessions)
      ensures OrderMembers(old(rooms[id].State())) && IsPerm(order, IdSeq(RemovePlayer(old(rooms[id].State()), c).players))
      ensures (old(rooms[id]).State(), outcome) == Leave(old(rooms[id].State()), c, wasHost, order)
      ensures rooms == if outcome == Emptied then old(rooms) - {id} else old(rooms)
    {
      var room := rooms[id];
      ghost var s := room.State();
      outcome, order := room.Leave(c, wasHost);
      LeaveKeeps(s, c, wasHost, order);
      if outcome == Emptied {
        rooms := rooms - {id};
      }
      OthersKept(id);
    }

    /**
     * disconnect of connection `c`, as written: the departure from the room
     * its session names. When the handler throws (`failed`), the session is
     * not deleted.
     */
    method Disconnect(c: ConnId) returns (failed: bool, ghost outcome: Departure, ghost order: seq<ConnId>)
      requires Valid()
      modifies this, if c in sessions then At(sessions[c].roomId) else {}
      ensures Valid()
      ensures c !in old(sessions) ==> !failed && rooms == old(rooms) && sessions == old(sessions)
      ensures c in old(sessions) && old(sessions[c].roomId) !in old(rooms) ==>
                !failed && rooms == old(rooms) && sessions == old(sessions) - {c}
      ensures c in old(sessions) && old(sessions[c].roomId) in old(rooms) ==>
                var id := old(sessions[c].roomId);
                && OrderMembers(old(rooms[id].State()))
                && IsPerm(order, IdSeq(RemovePlayer(old(rooms[id].State()), c).players))
                && (old(rooms[id]).State(), outcome) == Leave(old(rooms[id].State()), c, old(sessions[c].isHost), order)
                && failed == (outcome == Threw)
                && rooms == (if outcome == Emptied then old(rooms) - {id} else old(rooms))
                && sessions == (if failed then old(sessions) else old(sessions) - {c})
    {
      failed, outcome, order := false, Departed, [];
      if c !in sessions {
        return;
      }
      var session := sessions[c];
      if session.roomId in rooms {
        var departure;
        departure, order := LeaveRoom(session.roomId, c, session.isHost);
        outcome := departure;
        if departure == Threw {
          failed := true;
          return;
        }
      }
      DropSession(c, None);
    }

    /**
     * The room part of disconnect as evidently intended: `c` leaves room `id`
     * (Game.LeaveIntended), and an emptied room is deleted from the map.
     */
    method LeaveRoomIntended(id: RoomId, c: ConnId, wasHost: bool) returns (emptied: bool, ghost order: seq<ConnId>)
      requires Valid() && id in rooms
      modifies this`rooms, At(id)
      ensures Valid() && sessions == old(sessions)
      ensures OrderMembers(old(rooms[id].State())) && IsPerm(order, IdSeq(RemovePlayer(old(rooms[id].State()), c).players))
      ensures (old(rooms[id]).State(), emptied) == LeaveIntended(old(rooms[id].State()), c, wasHost, order)
      ensures rooms == if emptied then old(rooms) - {id} else old(rooms)
    {
      var room := rooms[id];
      ghost var s := room.State();
      emptied, order := room.LeaveIntended(c, wasHost);
      LeaveIntendedKeeps(s, c, wasHost, order);
      if emptied {
        rooms := rooms - {id};
      }
      OthersKept(id);
    }

    /**
     * disconnect as evidently intended; besides the room part, the session
     * copy of the player who inherits the host flag is marked host, so that
     * start-game accepts them, and the session of `c` is always deleted.
     */
    method DisconnectIntended(c: ConnId) returns (ghost emptied: bool, heir: Option<ConnId>,
                                                  ghost before: RoomState, ghost order: seq<ConnId>)
      requires Valid()
      modifies this, if c in sessions then At(sessions[c].roomId) else {}
      ensures Valid()
      ensures heir.Some? ==> heir.value in old(sessions)
      ensures sessions == (if heir.Some? then old(sessions)[heir.value := old(sessions[heir.value]).(isHost := true)]
                           else old(sessions)) - {c}
      ensures c !in old(sessions) || old(sessions[c].roomId) !in old(rooms) ==> rooms == old(rooms) && heir == None
      ensures c in old(sessions) && old(sessions[c].roomId) in old(rooms) ==>
                var id := old(sessions[c].roomId);
                && before == old(rooms[id].State())
                && OrderMembers(before) && IsPerm(order, IdSeq(RemovePlayer(before, c).players))
                && (old(rooms[id]).State(), emptied) == LeaveIntended(before, c, old(sessions[c].isHost), order)
                && rooms == (if emptied then old(rooms) - {id} else old(rooms))
                && var left := RemovePlayer(before, c).players;
                   && (heir.Some? <==> old(sessions[c].isHost) && !emptied && |left| > 0 && left[0].id in old(sessions)
                                       && old(sessions[left[0].id].roomId) == id)
                   && (heir.Some? ==> |left| > 0 && heir.value == left[0].id)
    {
      emptied, heir, before, order := false, None, Initial(Config("", "", false, 0, None, "")), [];
      if c !in sessions {
        return;
      }
      var session := sessions[c];
      if session.roomId in rooms {
        var room := rooms[session.roomId];
        before := room.State();
        var left := PlayersWithout(room.players, c);
        var gone;
        gone, order := LeaveRoomIntended(session.roomId, c, session.isHost);
        emptied := gone;
        if session.isHost && !gone && |left| > 0 && left[0].id in sessions && sessions[left[0].id].roomId == session.roomId {
          heir := Some(left[0].id);
        }
      }
      assert Valid();
      DropSession(c, heir);
    }

    /** The session of `c` becomes `session`. */
    method PutSession(c: ConnId, session: Session)
      modifies this`sessions
      ensures sessions == old(sessions)[c := session]
    {
      sessions := sessions[c := session];
    }

    /** The session of `c` is deleted; the session of `heir`, if any, is marked host. */
    method DropSession(c: ConnId, heir: Option<ConnId>)
      requires heir.Some? ==> heir.value in sessions
      modifies this`sessions
      ensures sessions == (if heir.Some? then old(sessions)[heir.value := old(sessions[heir.value]).(isHost := true)]
                           else old(sessions)) - {c}
    {
      if heir.Some? {
        sessions := sessions[heir.value := sessions[heir.value].(isHost := true)];
      }
      sessions := sessions - {c};
    }
  }
}
