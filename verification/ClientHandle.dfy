/** TwofacedPoker/Network/ClientHandle.cpp: one client's way into and out of rooms, undisturbed by other threads.
    Lifecycle has the same paths cut at every lock. */
module ClientHandle {
  import opened Foundation
  import BetCommandParser
  import Room = RoomManager
  import Registry = RoomRegistry
  import Game = GameManager
  import Session = GameSession
  import S = Sections

  const NO_ROOM := -1

  // What a handler itself answers.
  datatype Reply = NotExistRoom | ExistRoom | RoomNumberIs(n: int) | RoomNameIs(name: string) | IdIs(id: string)

  class ClientEventHandler {
    const roomRegistry: Registry.RoomRegistry
    const socket: Socket
    var userNumber: UserNumber
    var roomNumber: int
    var ID: string
    var replies: seq<Reply>

    constructor (roomRegistry: Registry.RoomRegistry, socket: Socket)
      ensures this.roomRegistry == roomRegistry && this.socket == socket
      ensures userNumber == NoNumber && roomNumber == NO_ROOM && replies == []
    {
      this.roomRegistry := roomRegistry;
      this.socket := socket;
      userNumber, roomNumber, ID, replies := NoNumber, NO_ROOM, "", [];
    }

    ghost predicate MemberOf(n: int)
      reads this, roomRegistry, roomRegistry.Managers()
    {
      n in roomRegistry.rooms && roomRegistry.rooms[n].roomManager.IsMember(userNumber, socket)
    }

    // The client knows of exactly the room it is in.
    ghost predicate InStep()
      reads this, roomRegistry, roomRegistry.Managers()
    {
      && (roomNumber >= 0 ==> MemberOf(roomNumber))
      && forall n :: n in roomRegistry.rooms && n != roomNumber ==> Absent(n)
    }

    ghost predicate Absent(n: int)
      reads this, roomRegistry, roomRegistry.Managers()
      requires n in roomRegistry.rooms
    {
      var room := roomRegistry.rooms[n].roomManager;
      socket !in room.connections && userNumber !in room.users
    }

    method HandleLogin(nextClientNumber: nat) returns (next: nat)
      modifies this`userNumber, this`ID, this`replies
      ensures old(userNumber) != NoNumber ==> userNumber == old(userNumber) && ID == old(ID) && next == nextClientNumber
      ensures old(userNumber) == NoNumber ==>
        && userNumber == Number(nextClientNumber) && next == nextClientNumber + 1
        && ID == "Guest" + BetCommandParser.Print(nextClientNumber)
      ensures replies == old(replies) + [IdIs(ID)]
    {
      next := nextClientNumber;
      if userNumber == NoNumber {
        userNumber := Number(nextClientNumber);
        next := nextClientNumber + 1;
        ID := "Guest" + BetCommandParser.Print(nextClientNumber);
      }
      replies := replies + [IdIs(ID)];
    }

    // A logged-in client without a room gets a new one, unless its connection is invalid.
    method HandleCreateChattingRoom(roomName: string)
      requires roomRegistry.Valid() && InStep() && roomNumber >= NO_ROOM
      modifies this`roomNumber, this`replies, roomRegistry
      ensures roomRegistry.Valid() && InStep() && roomNumber >= NO_ROOM
      ensures old(userNumber == NoNumber || roomNumber >= 0) || socket == INVALID_SOCKET ==>
        && roomNumber == old(roomNumber) && roomRegistry.rooms == old(roomRegistry.rooms)
        && replies == old(replies)
          + [if old(userNumber) != NoNumber && old(roomNumber) >= 0 then ExistRoom else NotExistRoom]
      ensures old(userNumber != NoNumber && roomNumber < 0) && socket != INVALID_SOCKET ==>
        && roomNumber == old(roomRegistry.nextRoomNumber) && roomNumber !in old(roomRegistry.rooms)
        && replies == old(replies) + [RoomNumberIs(roomNumber)]
        && var room := roomRegistry.rooms[roomNumber].roomManager;
           room.connections == {socket} && room.users.Keys == {userNumber} && room.roomName == roomName
    {
      hide Room.RoomManager.Valid, Room.RoomManager.Indexed, Room.RoomManager.SideAt;
      hide Room.RoomManager.UserAt, Session.GameSession.Valid;
      if userNumber == NoNumber {
        replies := replies + [NotExistRoom];
        return;
      }
      if roomNumber >= 0 {
        replies := replies + [ExistRoom];
        return;
      }
      var created := roomRegistry.CreateAndJoin(roomName, userNumber, ID, Some(socket));
      if created.None? {
        replies := replies + [NotExistRoom];
        return;
      }
      roomNumber := created.value;
      replies := replies + [RoomNumberIs(roomNumber)];
    }

    // The requested number as read from the text, if it is one.
    method HandleJoinChattingRoom(requested: Option<int>)
      requires roomRegistry.Valid() && InStep() && roomNumber >= NO_ROOM
      modifies this`roomNumber, this`replies, roomRegistry.Managers()
      ensures roomRegistry.Valid() && InStep() && roomNumber >= NO_ROOM && roomRegistry.rooms == old(roomRegistry.rooms)
      ensures roomNumber == if old(CanJoin(requested)) then requested.value else old(roomNumber)
      ensures old(CanJoin(requested)) ==> OthersTold(requested.value)
      ensures |replies| == old(|replies|) + 1 && replies[..|replies| - 1] == old(replies)
      ensures replies[|replies| - 1] ==
        if old(userNumber) == NoNumber || requested.None? then NotExistRoom
        else if roomNumber == requested.value && roomNumber >= 0 then
          RoomNameIs(roomRegistry.rooms[roomNumber].roomManager.roomName)
        else if old(roomNumber) >= 0 then ExistRoom else NotExistRoom
    {
      hide Room.RoomManager.Valid, Room.RoomManager.Indexed, Room.RoomManager.SideAt;
      hide Room.RoomManager.UserAt, Session.GameSession.Valid, Room.RoomManager.Two;
      hide Room.RoomManager.Duel, Room.RoomManager.Opponent, Registry.Accepts;
      if userNumber == NoNumber || requested.None? {
        replies := replies + [NotExistRoom];
        return;
      }
      if roomNumber == requested.value {
        var context := roomRegistry.Find(requested.value);
        if context.None? {
          roomNumber := NO_ROOM;
          replies := replies + [NotExistRoom];
          return;
        }
        replies := replies + [RoomNameIs(context.value.roomManager.roomName)];
        return;
      }
      if roomNumber >= 0 {
        replies := replies + [ExistRoom];
        return;
      }
      JoinRoom(requested.value);
    }

    // Exactly the others who were in room n were told of this client.
    twostate predicate OthersTold(n: int)
      requires n in roomRegistry.rooms && n in old(roomRegistry.rooms) && old(roomRegistry.Valid())
      requires roomRegistry.rooms[n] == old(roomRegistry.rooms[n])
      reads this, roomRegistry, roomRegistry.Managers()
    {
      var room := roomRegistry.rooms[n].roomManager;
      forall s :: s in old(room.connections) ==>
        s in room.outbox && room.outbox[s] == old(room.outbox[s]) + [Chat(ID + " Joined.")]
    }

    // The way into a room for a client that has none; the other member is told.
    method JoinRoom(requested: int)
      requires roomRegistry.Valid() && InStep() && userNumber != NoNumber && roomNumber == NO_ROOM
      modifies this`roomNumber, this`replies, roomRegistry.Managers()
      ensures roomRegistry.Valid() && InStep() && roomNumber >= NO_ROOM && roomRegistry.rooms == old(roomRegistry.rooms)
      ensures roomNumber == if old(HasSeatFor(requested)) then requested else NO_ROOM
      ensures old(HasSeatFor(requested)) ==> OthersTold(requested)
      ensures replies == old(replies)
        + [if roomNumber >= 0 then RoomNameIs(roomRegistry.rooms[roomNumber].roomManager.roomName) else NotExistRoom]
    {
      hide Room.RoomManager.Valid, Room.RoomManager.Indexed, Room.RoomManager.SideAt;
      hide Room.RoomManager.UserAt, Session.GameSession.Valid, Room.RoomManager.Two;
      hide Room.RoomManager.Duel, Room.RoomManager.Opponent, Registry.Accepts;
      var roomManager := roomRegistry.TryJoin(requested, userNumber, ID, Some(socket));
      if roomManager == null {
        replies := replies + [NotExistRoom];
        return;
      }
      roomNumber := requested;
      replies := replies + [RoomNameIs(roomManager.roomName)];
      AnnounceJoin(roomManager);
    }

    method AnnounceJoin(room: Room.RoomManager)
      requires room.Valid()
      modifies room`outbox
      ensures room.Valid()
      ensures forall s :: s in room.connections && s != socket ==>
        s in room.outbox && s in old(room.outbox) && room.outbox[s] == old(room.outbox[s]) + [Chat(ID + " Joined.")]
    {
      hide Room.RoomManager.Valid, Room.RoomManager.Indexed, Room.RoomManager.SideAt;
      hide Room.RoomManager.UserAt, Room.RoomManager.Sides, Room.RoomManager.Duel;
      room.MembersAreReachable();
      room.BroadcastMessage(Chat(ID + " Joined."), socket, ToOthers);
      room.MembersAreReachable();
    }

    ghost predicate HasSeatFor(n: int)
      reads this, roomRegistry, roomRegistry.Managers()
    {
      n in roomRegistry.rooms && Registry.Accepts(roomRegistry.rooms[n].roomManager, userNumber, Some(socket))
    }

    ghost predicate CanJoin(requested: Option<int>)
      reads this, roomRegistry, roomRegistry.Managers()
    {
      userNumber != NoNumber && roomNumber < 0 && requested.Some? && HasSeatFor(requested.value)
    }

    // The client was answered, whoever stayed was told, and a match that was on is over.
    twostate predicate ToldOfExit(room: Room.RoomManager, session: Session.GameSession)
      reads this, room, room.users.Values, session
    {
      && session.Phase().Waiting? && room.NobodyReady()
      && socket in room.outbox && socket in old(room.outbox)
      && room.outbox[socket] == old(room.outbox[socket]) + [ExitComplete]
      && old(userNumber in room.users)
      && forall s :: s in room.connections ==>
           && s in room.outbox && s in old(room.outbox)
           && room.outbox[s] == old(room.outbox[s]) + [Exited(old(room.users[userNumber]).ID)]
             + S.If(old(session.Phase()).Betting?, GameAborted)
    }

    method LeaveGame(gameManager: Game.GameManager) returns (removed: bool)
      requires gameManager.Valid() && gameManager.roomManager.IsMember(userNumber, socket)
      modifies gameManager.roomManager, gameManager.roomManager.users.Values, gameManager.gameSession
      ensures gameManager.Valid() && removed
      ensures var room := gameManager.roomManager;
        && room.connections == old(room.connections) - {socket} && room.users == old(room.users) - {userNumber}
        && ToldOfExit(room, gameManager.gameSession)
    {
      hide Room.RoomManager.Valid, Room.RoomManager.Indexed, Room.RoomManager.SideAt;
      hide Room.RoomManager.UserAt, Session.GameSession.Valid, Game.GameManager.AsTable, Game.Muted;
      gameManager.roomManager.MembersAreReachable();
      removed := gameManager.HandlePlayerExit(userNumber, ID, socket);
      gameManager.roomManager.MembersAreReachable();
    }

    // The room is closed exactly if nobody else is in it.
    method HandleExitRoom()
      requires roomRegistry.Valid() && InStep()
      modifies this`roomNumber, roomRegistry, roomRegistry.Managers(), roomRegistry.Sessions(), roomRegistry.Users()
      ensures roomRegistry.Valid() && InStep()
      ensures old(roomNumber) < 0 ==> roomNumber == old(roomNumber) && roomRegistry.rooms == old(roomRegistry.rooms)
      ensures old(roomNumber) >= 0 ==>
        && roomNumber == NO_ROOM
        && var n := old(roomNumber);
           var room := old(roomRegistry.rooms[n].roomManager);
           && room.connections == old(roomRegistry.rooms[n].roomManager.connections) - {socket}
           && roomRegistry.rooms == old(roomRegistry.rooms) - (if room.connections == {} then {n} else {})
           && ToldOfExit(room, old(roomRegistry.rooms[n].gameManager.gameSession))
    {
      hide Room.RoomManager.Valid, Room.RoomManager.Indexed, Room.RoomManager.SideAt;
      hide Room.RoomManager.UserAt, Session.GameSession.Valid, Game.GameManager.AsTable, Game.Muted;
      var exitingRoomNumber := roomNumber;
      if exitingRoomNumber < 0 {
        return;
      }
      var context := roomRegistry.Find(exitingRoomNumber);
      roomNumber := NO_ROOM;
      if context.None? {
        return;
      }
      var roomManager := context.value.roomManager;
      var removed := LeaveGame(context.value.gameManager);
      if !removed {
        return;
      }
      var erased := roomRegistry.EraseIfEmpty(exitingRoomNumber, roomManager);
    }

    method Disconnect()
      requires roomRegistry.Valid() && InStep()
      modifies this`roomNumber, roomRegistry, roomRegistry.Managers(), roomRegistry.Sessions(), roomRegistry.Users()
      ensures roomRegistry.Valid() && InStep() && roomNumber < 0
    {
      if roomNumber >= 0 {
        HandleExitRoom();
      }
    }
  }
}
