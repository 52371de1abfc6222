/**
 * Concrete runs of the registry that exhibit the host hand-over defect of
 * the disconnect handler: the room's new host keeps a session copy that
 * says it is not the host, so start-game refuses it.
 */
module Scenarios {
  import opened Wrappers
  import opened Shuffle
  import opened Players
  import opened Game
  import opened Server

  const Ann := Player("a", "Ann", 0, true)
  const Ben := Player("b", "Ben", 0, false)
  const Dee := Player("d", "Dee", 0, false)

  lemma WithoutAnn()
    ensures PlayersWithout([Ann, Ben, Dee], "a") == [Ben, Dee]
  {
    assert PlayersWithout([Dee], "a") == [Dee];
    assert PlayersWithout([Ben, Dee], "a") == [Ben, Dee];
  }

  /** As written, the host "a" leaves a waiting room of three: the flag moves to "b", who is now first, and the handler throws. */
  lemma HostLeavesRoomOfThree(s: RoomState, order: seq<ConnId>)
    requires s.players == [Ann, Ben, Dee]
    requires OrderMembers(s) && IsPerm(order, IdSeq(RemovePlayer(s, "a").players))
    ensures Leave(s, "a", true, order).1 == Threw
    ensures Leave(s, "a", true, order).0.players == [Ben.(isHost := true), Dee]
  {
    WithoutAnn();
  }

  /** As intended, the same departure: the flag moves to "b" and the room stays. */
  lemma HostLeavesRoomOfThreeIntended(s: RoomState, order: seq<ConnId>)
    requires s.players == [Ann, Ben, Dee] && s.status == Waiting
    requires OrderMembers(s) && IsPerm(order, IdSeq(RemovePlayer(s, "a").players))
    ensures !LeaveIntended(s, "a", true, order).1
    ensures LeaveIntended(s, "a", true, order).0.players == [Ben.(isHost := true), Dee]
  {
    WithoutAnn();
  }

  /** Two players join room "r"; "a" is the host. */
  method RoomOfTwo() returns (reg: Registry)
    ensures reg.Valid() && fresh(reg) && "r" in reg.rooms && fresh(reg.rooms["r"])
    ensures reg.rooms["r"].players == [Ann, Ben] && reg.rooms["r"].status == Waiting
    ensures reg.rooms["r"].config.maxPlayers == None
    ensures reg.sessions == map["a" := Session("Ann", true, 0, "r"), "b" := Session("Ben", false, 0, "r")]
  {
    reg := new Registry();
    var e := reg.CreateRoom("r", "room", true, 60, None, None);
    e := reg.JoinRoom("a", "r", "Ann");
    assert e == None;
    e := reg.JoinRoom("b", "r", "Ben");
    assert e == None;
  }

  /** A third player joins, so that "a" is the host and "b" the next in line. */
  method RoomOfThree() returns (reg: Registry)
    ensures reg.Valid() && fresh(reg) && "r" in reg.rooms && fresh(reg.rooms["r"])
    ensures reg.rooms["r"].players == [Ann, Ben, Dee] && reg.rooms["r"].status == Waiting
    ensures reg.sessions == map["a" := Session("Ann", true, 0, "r"), "b" := Session("Ben", false, 0, "r"),
                                "d" := Session("Dee", false, 0, "r")]
  {
    reg := RoomOfTwo();
    var e := reg.JoinRoom("d", "r", "Dee");
    assert e == None;
  }

  /** As written, the host "a" of that room disconnects: "b" holds the host flag in the room but not in its session. */
  method HostLeaves(reg: Registry)
    requires reg.Valid() && "r" in reg.rooms && reg.rooms["r"].players == [Ann, Ben, Dee]
    requires "a" in reg.sessions && reg.sessions["a"] == Session("Ann", true, 0, "r")
    requires "b" in reg.sessions && reg.sessions["b"] == Session("Ben", false, 0, "r")
    modifies reg, reg.rooms["r"]
    ensures reg.Valid() && reg.rooms == old(reg.rooms) && reg.rooms["r"].players == [Ben.(isHost := true), Dee]
    ensures "b" in reg.sessions && reg.sessions["b"] == Session("Ben", false, 0, "r")
  {
    ghost var s := reg.rooms["r"].State();
    var failed;
    ghost var outcome, order;
    failed, outcome, order := reg.Disconnect("a");
    HostLeavesRoomOfThree(s, order);
  }

  /** As written: after the host leaves, the new host "b" is refused by start-game. */
  method HostHandoverAsWritten() returns (reg: Registry, err: Option<ErrorKind>)
    ensures "r" in reg.rooms && reg.rooms["r"].players == [Ben.(isHost := true), Dee]
    ensures err == Some(OnlyHost)
  {
    reg := RoomOfThree();
    HostLeaves(reg);
    ghost var first, order;
    err, first, order := reg.StartGame("b", "r");
  }

  /** The session bookkeeping of the intended disconnect of "a" marks "b" as host. */
  lemma PromotedHeir(ss: map<ConnId, Session>, s: RoomState, emptied: bool, heir: Option<ConnId>,
                     order: seq<ConnId>, after: map<ConnId, Session>)
    requires "a" in ss && ss["a"] == Session("Ann", true, 0, "r")
    requires "b" in ss && ss["b"] == Session("Ben", false, 0, "r")
    requires s.players == [Ann, Ben, Dee] && s.status == Waiting
    requires OrderMembers(s) && IsPerm(order, IdSeq(RemovePlayer(s, "a").players))
    requires emptied == LeaveIntended(s, "a", true, order).1
    requires var left := RemovePlayer(s, "a").players;
             && (heir.Some? <==> ss["a"].isHost && !emptied && |left| > 0 && left[0].id in ss && ss[left[0].id].roomId == "r")
             && (heir.Some? ==> |left| > 0 && heir.value == left[0].id)
    requires heir.Some? ==> heir.value in ss
    requires after == (if heir.Some? then ss[heir.value := ss[heir.value].(isHost := true)] else ss) - {"a"}
    ensures "b" in after && after["b"] == Session("Ben", true, 0, "r")
  {
    HostLeavesRoomOfThreeIntended(s, order);
    WithoutAnn();
  }

  /** As intended, the host "a" disconnects: "b" holds the host flag both in the room and in its session. */
  method HostLeavesIntended(reg: Registry)
    requires reg.Valid() && "r" in reg.rooms && reg.rooms["r"].players == [Ann, Ben, Dee] && reg.rooms["r"].status == Waiting
    requires "a" in reg.sessions && reg.sessions["a"] == Session("Ann", true, 0, "r")
    requires "b" in reg.sessions && reg.sessions["b"] == Session("Ben", false, 0, "r")
    modifies reg, reg.rooms["r"]
    ensures reg.Valid() && reg.rooms == old(reg.rooms) && reg.rooms["r"].players == [Ben.(isHost := true), Dee]
    ensures "b" in reg.sessions && reg.sessions["b"] == Session("Ben", true, 0, "r")
  {
    ghost var s := reg.rooms["r"].State();
    ghost var ss := reg.sessions;
    ghost var emptied, before, order;
    var heir;
    emptied, heir, before, order := reg.DisconnectIntended("a");
    HostLeavesRoomOfThreeIntended(s, order);
    PromotedHeir(ss, s, emptied, heir, order, reg.sessions);
  }

  /** As intended: after the host leaves, the new host "b" starts the game. */
  method HostHandoverIntended() returns (reg: Registry, err: Option<ErrorKind>)
    ensures "r" in reg.rooms && reg.rooms["r"].status == Playing
    ensures err == None
  {
    reg := RoomOfThree();
    HostLeavesIntended(reg);
    ghost var first, order;
    err, first, order := reg.StartGame("b", "r");
  }
}
