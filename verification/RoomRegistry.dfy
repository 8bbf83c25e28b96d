/** TwofacedPoker/Room/RoomRegistry.cpp: the open rooms by number. Every method is one section of the registry
    mutex. */
module RoomRegistry {
  import opened Foundation
  import Room = RoomManager
  import Game = GameManager
  import Session = GameSession
  import Deck

  datatype RoomContext = RoomContext(roomManager: Room.RoomManager, gameManager: Game.GameManager)
  datatype RoomSummary = RoomSummary(roomNumber: int, roomName: string)

  // What addUser asks of a room, a user number and a connection.
  ghost predicate Accepts(room: Room.RoomManager, userNumber: UserNumber, connection: Option<Socket>)
    reads room
  {
    && connection.Some? && connection.value != INVALID_SOCKET && connection.value !in room.connections
    && |room.users| < 2 && userNumber !in room.users
  }

  // A room with space for one more.
  ghost predicate HasSeat(room: Room.RoomManager)
    reads room
  {
    |room.users| < 2
  }

  class RoomRegistry {
    var rooms: map<int, RoomContext>
    var nextRoomNumber: int

    ghost function Managers(): set<Room.RoomManager>
      reads this
    {
      set n | n in rooms :: rooms[n].roomManager
    }

    ghost function Users(): set<Room.User>
      reads this, Managers()
    {
      set n, u | n in rooms && u in rooms[n].roomManager.users.Values :: u
    }

    ghost function Sessions(): set<Session.GameSession>
      reads this
    {
      set n | n in rooms :: rooms[n].gameManager.gameSession
    }

    ghost function Decks(): set<Deck.Deck>
      reads this
    {
      set n | n in rooms :: rooms[n].gameManager.gameSession.deck
    }

    // Numbers are below the next one, and no two numbers lead to the same room or the same game.
    ghost predicate Numbered()
      reads this
    {
      && nextRoomNumber >= 1
      && (forall n :: n in rooms ==>
            1 <= n < nextRoomNumber && rooms[n].gameManager.roomManager == rooms[n].roomManager)
      && (forall n, m :: n in rooms && m in rooms && n != m ==>
            rooms[n].roomManager != rooms[m].roomManager
            && rooms[n].gameManager.gameSession != rooms[m].gameManager.gameSession)
    }

    ghost predicate Valid()
      reads this, Managers(), Sessions(), Decks()
    {
      Numbered() && forall n :: n in rooms ==> rooms[n].gameManager.Valid()
    }

    constructor ()
      ensures Valid() && rooms == map[] && nextRoomNumber == 1
    {
      rooms, nextRoomNumber := map[], 1;
    }

    method Find(roomNumber: int) returns (context: Option<RoomContext>)
      ensures context == if roomNumber in rooms then Some(rooms[roomNumber]) else None
    {
      if roomNumber in rooms {
        return Some(rooms[roomNumber]);
      }
      return None;
    }

    // The number is used up even if the room is not opened.
    method CreateAndJoin(roomName: string, userNumber: UserNumber, userId: string, connection: Option<Socket>)
      returns (created: Option<int>)
      requires Valid()
      modifies this
      ensures Valid() && nextRoomNumber == old(nextRoomNumber) + 1
      ensures created.Some? <==> connection.Some? && connection.value != INVALID_SOCKET
      ensures created.None? ==> rooms == old(rooms)
      ensures created.Some? ==>
        && created.value == old(nextRoomNumber) && created.value !in old(rooms) && created.value in rooms
        && rooms == old(rooms)[created.value := rooms[created.value]]
        && var room := rooms[created.value].roomManager;
           fresh(room) && room.roomName == roomName
           && room.connections == {connection.value} && room.users.Keys == {userNumber}
           && room.IsMember(userNumber, connection.value)
    {
      hide Room.RoomManager.Valid, Room.RoomManager.Indexed, Room.RoomManager.SideAt;
      hide Room.RoomManager.UserAt, Session.GameSession.Valid;
      var roomNumber := nextRoomNumber;
      nextRoomNumber := nextRoomNumber + 1;
      var roomManager := NewRoom(roomName, userNumber, userId, connection);
      if roomManager == null {
        return None;
      }
      var gameManager := new Game.GameManager(roomManager);
      rooms := rooms[roomNumber := RoomContext(roomManager, gameManager)];
      return Some(roomNumber);
    }

    // A room with its first member, not yet registered.
    method NewRoom(roomName: string, userNumber: UserNumber, userId: string, connection: Option<Socket>)
      returns (room: Room.RoomManager?)
      ensures room != null <==> connection.Some? && connection.value != INVALID_SOCKET
      ensures room != null ==>
        && fresh(room) && room.Valid() && room.roomName == roomName && room.connections == {connection.value}
        && room.users.Keys == {userNumber} && room.IsMember(userNumber, connection.value)
    {
      hide Room.RoomManager.Valid, Room.RoomManager.Indexed, Room.RoomManager.SideAt;
      hide Room.RoomManager.UserAt, Session.GameSession.Valid;
      var roomManager := new Room.RoomManager(roomName);
      var added := roomManager.AddUser(userNumber, userId, connection);
      return if added then roomManager else null;
    }

    method TryJoin(roomNumber: int, userNumber: UserNumber, userId: string, connection: Option<Socket>)
      returns (room: Room.RoomManager?)
      requires Valid()
      modifies Managers()
      ensures Valid() && rooms == old(rooms)
      ensures room != null <==>
        roomNumber in rooms && old(Accepts(rooms[roomNumber].roomManager, userNumber, connection))
      ensures room != null ==>
        && room == rooms[roomNumber].roomManager
        && room.connections == old(rooms[roomNumber].roomManager.connections) + {connection.value}
        && room.users.Keys == old(rooms[roomNumber].roomManager.users.Keys) + {userNumber}
        && room.IsMember(userNumber, connection.value)
        && connection.value !in old(rooms[roomNumber].roomManager.connections)
        && forall s :: s in old(rooms[roomNumber].roomManager.connections) ==>
             && s in room.outbox && s in old(rooms[roomNumber].roomManager.outbox)
             && room.outbox[s] == old(rooms[roomNumber].roomManager.outbox[s])
      ensures forall n :: n in rooms && (n != roomNumber || room == null) ==> unchanged(rooms[n].roomManager)
    {
      hide Room.RoomManager.Valid, Room.RoomManager.Indexed, Room.RoomManager.SideAt;
      hide Room.RoomManager.UserAt, Session.GameSession.Valid;
      if roomNumber !in rooms {
        return null;
      }
      var roomManager := rooms[roomNumber].roomManager;
      roomManager.MembersAreReachable();
      var added := roomManager.AddUser(userNumber, userId, connection);
      if !added {
        return null;
      }
      return roomManager;
    }

    // x is an open room with a seat, under its name.
    ghost predicate Offers(x: RoomSummary)
      reads this, Managers()
    {
      && x.roomNumber in rooms && HasSeat(rooms[x.roomNumber].roomManager)
      && x.roomName == rooms[x.roomNumber].roomManager.roomName
    }

    ghost predicate Covers(result: seq<RoomSummary>, n: int)
      reads this, Managers()
    {
      n in rooms && HasSeat(rooms[n].roomManager) ==> exists i :: 0 <= i < |result| && result[i].roomNumber == n
    }

    // All rooms below the bound that have a seat, each once, by ascending number.
    ghost predicate Lists(result: seq<RoomSummary>, bound: int)
      reads this, Managers()
    {
      && (forall i :: 0 <= i < |result| ==> result[i].roomNumber < bound && Offers(result[i]))
      && (forall i, j :: 0 <= i < j < |result| ==> result[i].roomNumber < result[j].roomNumber)
      && (forall n :: n < bound ==> Covers(result, n))
    }

    lemma ListGrows(result: seq<RoomSummary>, x: RoomSummary)
      requires Lists(result, x.roomNumber) && Offers(x)
      ensures Lists(result + [x], x.roomNumber + 1)
    {
      hide Offers;
      var more, n := result + [x], x.roomNumber;
      forall m | m < n + 1 ensures Covers(more, m) {
        assert more[|result|] == x;
        if m < n && m in rooms && HasSeat(rooms[m].roomManager) {
          assert Covers(result, m);
          var i :| 0 <= i < |result| && result[i].roomNumber == m;
          assert more[i].roomNumber == m;
        }
      }
    }

    lemma ListStays(result: seq<RoomSummary>, n: int)
      requires Lists(result, n) && !(n in rooms && HasSeat(rooms[n].roomManager))
      ensures Lists(result, n + 1)
    {
    }

    // The order is that of the map.
    method ListAvailable() returns (result: seq<RoomSummary>)
      requires Valid()
      ensures Lists(result, nextRoomNumber)
    {
      hide Room.RoomManager.Valid, Room.RoomManager.Indexed, Room.RoomManager.SideAt;
      hide Room.RoomManager.UserAt, Session.GameSession.Valid;
      result := [];
      assert forall n :: n < 1 ==> Covers(result, n);
      for n := 1 to nextRoomNumber
        invariant Lists(result, n)
      {
        if n !in rooms {
          ListStays(result, n);
          continue;
        }
        var room := rooms[n].roomManager;
        if room.GetRoomCount() < 2 {
          ListGrows(result, RoomSummary(n, room.roomName));
          result := result + [RoomSummary(n, room.roomName)];
        } else {
          ListStays(result, n);
        }
      }
    }

    method EraseIfEmpty(roomNumber: int, expectedRoom: Room.RoomManager) returns (erased: bool)
      requires Valid()
      modifies this
      ensures Valid() && nextRoomNumber == old(nextRoomNumber)
      ensures erased <==>
        && roomNumber in old(rooms) && old(rooms[roomNumber].roomManager) == expectedRoom
        && expectedRoom.connections == {}
      ensures rooms == if erased then old(rooms) - {roomNumber} else old(rooms)
    {
      hide Room.RoomManager.Valid, Room.RoomManager.Indexed, Room.RoomManager.SideAt;
      hide Room.RoomManager.UserAt, Session.GameSession.Valid;
      if roomNumber !in rooms || rooms[roomNumber].roomManager != expectedRoom {
        return false;
      }
      if !expectedRoom.IsRoomEmpty() {
        return false;
      }
      rooms := rooms - {roomNumber};
      return true;
    }
  }
}
