/** TwofacedPoker/Room/RoomManager.cpp: the members of one room, their chips, bets and cards, and the messages
    handed to their connections. Every public method is one roomMutex section followed by its sends. */
module RoomManager {
  import opened Foundation
  import BettingRules
  import RoundResolver
  import SettlementRules
  import S = Sections
  import Table

  class User {
    const userNumber: UserNumber
    const ID: string
    var isReady: bool
    var chips: int
    var frontBet: int
    var backBet: int
    var frontCard: int
    var backCard: int
    var betType: BetType

    constructor (userNumber: UserNumber, ID: string)
      ensures this.userNumber == userNumber && this.ID == ID && !isReady
      ensures AsSide([]) == Table.NEWCOMER
    {
      this.userNumber := userNumber;
      this.ID := ID;
      isReady := false;
      chips, frontBet, backBet, frontCard, backCard, betType := 0, 0, 0, 0, 0, Unset;
    }

    // The cards on the faces the user bet on.
    ghost function Faces(): set<int>
      reads this
    {
      match betType
      case Front => {frontCard}
      case Back => {backCard}
      case Both => {frontCard, backCard}
      case _ => {}
    }

    // What a new round resets.
    method Clear()
      modifies `frontBet, `backBet, `frontCard, `backCard, `betType
      ensures AsSide([]) == S.Fresh([]).(chips := chips)
    {
      frontBet, backBet := 0, 0;
      frontCard, backCard := 0, 0;
      betType := Unset;
    }

    ghost function AsSide(log: seq<Msg>): S.Side
      reads this
    {
      S.Side(chips, frontBet, backBet, frontCard, backCard, betType, log)
    }
  }

  // ---- messages collected under the lock, sent after it -----------------------------------------

  const READY := "READY"
  const DONE := "DONE"

  datatype PendingSend = PendingSend(socket: Socket, message: Msg)

  function AddedIf(b: bool, msgs: seq<Msg>, m: Msg): seq<Msg> { if b then msgs + [m] else msgs }

  // The messages for one connection, in order.
  function For(pending: seq<PendingSend>, s: Socket): (msgs: seq<Msg>)
    ensures pending == [] ==> msgs == []
  {
    if pending == [] then []
    else
      var last := pending[|pending| - 1];
      AddedIf(last.socket == s, For(pending[..|pending| - 1], s), last.message)
  }

  lemma ForAppend(pending: seq<PendingSend>, p: PendingSend)
    ensures forall s :: For(pending + [p], s) == AddedIf(p.socket == s, For(pending, s), p.message)
  {
    assert (pending + [p])[..|pending|] == pending;
  }

  predicate Targets(target: TargetType, sender: Socket, receiver: Socket) {
    match target
    case ToSelf => receiver == sender
    case ToOthers => receiver != sender
    case ToAll => true
  }

  function Perspective(reader: Socket, subject: Socket): Whose { if reader == subject then Mine else Others }

  // ---- the member indexes ------------------------------------------------------------------------

  // Every connection leads to a user.
  ghost predicate Linked(connections: set<Socket>, users: map<UserNumber, User>, sun: map<Socket, UserNumber>) {
    && connections == sun.Keys
    && forall s :: s in sun ==> sun[s] in users
  }

  // so is the inverse of socketUserNumber: users and sockets correspond one to one.
  ghost predicate Bijective(users: map<UserNumber, User>, sun: map<Socket, UserNumber>, so: map<UserNumber, Socket>) {
    && users.Keys == so.Keys
    && (forall n :: n in users ==> users[n].userNumber == n)
    && (forall s :: s in sun ==> sun[s] in so && so[sun[s]] == s)
    && (forall n :: n in so ==> so[n] in sun && sun[so[n]] == n)
  }

  ghost predicate AtMostTwo(connections: set<Socket>, users: map<UserNumber, User>) {
    && |users| == |connections| <= 2
    && INVALID_SOCKET !in connections
  }

  // connections, users and socketUserNumber describe one set of at most two members.
  ghost predicate IndexesAgree(connections: set<Socket>, users: map<UserNumber, User>,
                               sun: map<Socket, UserNumber>, so: map<UserNumber, Socket>)
  {
    Linked(connections, users, sun) && Bijective(users, sun, so) && AtMostTwo(connections, users)
  }

  lemma AddKeepsIndexes(connections: set<Socket>, users: map<UserNumber, User>, sun: map<Socket, UserNumber>,
                        so: map<UserNumber, Socket>, s: Socket, user: User)
    requires IndexesAgree(connections, users, sun, so) && |users| < 2
    requires s !in connections && s != INVALID_SOCKET && user.userNumber !in users
    ensures IndexesAgree(connections + {s}, users[user.userNumber := user],
                         sun[s := user.userNumber], so[user.userNumber := s])
  {
    var n := user.userNumber;
    var users', sun', so' := users[n := user], sun[s := n], so[n := s];
    MapGrows(users, n, user);
    assert sun'.Keys == connections + {s};
    assert so'.Keys == users'.Keys;
    forall x | x in sun' ensures sun'[x] in users' && so'[sun'[x]] == x {
      if x != s { assert sun[x] != n; }
    }
    forall m | m in so' ensures so'[m] in connections + {s} && sun'[so'[m]] == m {
      if m != n { assert so[m] != s; }
    }
  }

  lemma ValuesShrink<K, V>(m: map<K, V>, k: K)
    ensures (m - {k}).Values <= m.Values
  {
    forall v | v in (m - {k}).Values ensures v in m.Values {
      var x :| x in m - {k} && (m - {k})[x] == v;
      assert m[x] == v;
    }
  }

  lemma MapGrows<K, V>(m: map<K, V>, k: K, v: V)
    requires k !in m
    ensures |m[k := v]| == |m| + 1
  {
    assert m[k := v].Keys == m.Keys + {k};
    assert |m[k := v].Keys| == |m[k := v]| && |m.Keys| == |m|;
  }

  lemma RemoveKeepsIndexes(connections: set<Socket>, users: map<UserNumber, User>, sun: map<Socket, UserNumber>,
                           so: map<UserNumber, Socket>, s: Socket, n: UserNumber)
    requires IndexesAgree(connections, users, sun, so) && s in connections && sun[s] == n
    ensures IndexesAgree(connections - {s}, users - {n}, sun - {s}, so - {n})
  {
    assert (users - {n}).Keys == users.Keys - {n};
    assert |(users - {n}).Keys| == |users - {n}| && |users.Keys| == |users|;
  }

  class RoomManager {
    const roomName: string
    var connections: set<Socket>
    var users: map<UserNumber, User>
    var socketUserNumber: map<Socket, UserNumber>
    var dealerChips: int
    var outbox: map<Socket, seq<Msg>>             // what was handed to each connection so far
    ghost var socketOf: map<UserNumber, Socket>

    ghost predicate Indexed()
      reads `connections, `users, `socketUserNumber, `socketOf
    {
      IndexesAgree(connections, users, socketUserNumber, socketOf)
    }

    ghost predicate Valid()
      reads `connections, `users, `socketUserNumber, `socketOf, `outbox
    {
      connections <= outbox.Keys && Indexed()
    }

    ghost predicate Two(s: Socket)
      reads `connections
    {
      Table.Pair(connections, s)
    }

    ghost function Opponent(s: Socket): Socket
      reads `connections
      requires Two(s)
    {
      Table.Opponent(connections, s)
    }

    ghost function UserAt(s: Socket): (user: User)
      reads `connections, `users, `socketUserNumber, `socketOf
      requires Indexed() && s in connections
      ensures user in users.Values
    {
      users[socketUserNumber[s]]
    }

    ghost function SideAt(s: Socket): S.Side
      reads this, users.Values
      requires Valid() && s in connections
    {
      UserAt(s).AsSide(outbox[s])
    }

    // What others are told about a member.
    ghost function Profile(s: Socket): seq<Msg>
      reads `connections, `users, `socketUserNumber, `socketOf, users.Values
      requires Indexed() && s in connections
    {
      [UpdateId(UserAt(s).ID), UpdateReady(UserAt(s).isReady)]
    }

    ghost function Sides(): map<Socket, S.Side>
      reads this, users.Values
      requires Valid()
    {
      map s | s in connections :: SideAt(s)
    }

    // The room as a table, in this phase of its game.
    ghost function AsTable(phase: Table.Phase): (t: Table.Table)
      reads this, users.Values
      requires Valid()
      ensures t.sides.Keys == connections && t.phase == phase && t.faults == 0
    {
      Table.Table(Sides(), dealerChips, phase, 0)
    }

    // The room as the two players of a match, seen from the chair of s.
    ghost function Duel(s: Socket): S.Duel
      reads this, users.Values
      requires Valid() && Two(s)
    {
      S.Duel(SideAt(s), SideAt(Opponent(s)), dealerChips)
    }

    // No ready flag changed.
    twostate predicate ReadyKept()
      reads this, users.Values
    {
      users == old(users) && forall u: User :: u in users.Values ==> u.isReady == old(u.isReady)
    }

    twostate predicate Untouched()
      reads this, users.Values
    {
      unchanged(this) && forall u: User :: u in users.Values ==> unchanged(u)
    }

    constructor (roomName: string)
      ensures Valid() && this.roomName == roomName && connections == {} && users == map[] && dealerChips == 0
    {
      this.roomName := roomName;
      connections, users, socketUserNumber, dealerChips, outbox, socketOf := {}, map[], map[], 0, map[], map[];
    }

    // ---- lookups ---------------------------------------------------------------------------

    lemma EveryConnectionHasAUser()
      requires Indexed()
      ensures connections == socketUserNumber.Keys && forall s :: s in connections ==> socketUserNumber[s] in users
    {
    }

    lemma MembersAreReachable()
      requires Valid()
      ensures connections <= outbox.Keys
      ensures forall s :: s in connections ==> s in socketUserNumber && socketUserNumber[s] in users
    {
    }

    lemma MembersAreSockets(s: Socket)
      requires Valid() && Two(s)
      ensures s != INVALID_SOCKET
    {
    }

    lemma AllFresh()
      requires Valid() && forall u: User :: u in users.Values ==> u.AsSide([]) == S.Fresh([])
      ensures forall s :: s in Sides() ==> Sides()[s].(log := []) == S.Fresh([])
    {
      hide IndexesAgree;
      forall s | s in Sides() ensures Sides()[s].(log := []) == S.Fresh([]) {
        assert UserAt(s).AsSide([]) == S.Fresh([]);
      }
    }

    lemma TwoFrom(s: Socket, t: Socket)
      requires Valid() && s in connections && t in connections && s != t
      ensures Two(s) && Opponent(s) == t
    {
      assert {s, t} <= connections;
      assert |connections - {s} - {t}| == |connections| - 2;
    }

    lemma NoTwo(s: Socket)
      requires connections <= {s}
      ensures !Two(s)
    {
      assert connections == {} || connections == {s};
    }

    // No two members share a user object.
    lemma UsersDiffer(s: Socket, t: Socket)
      requires Valid() && s in connections && t in connections && s != t
      ensures UserAt(s) != UserAt(t)
    {
      assert UserAt(s).userNumber == socketUserNumber[s] && UserAt(t).userNumber == socketUserNumber[t];
    }

    lemma AloneInRoom(s: Socket)
      requires Valid() && s in connections && forall n :: n in users ==> users[n] == UserAt(s)
      ensures !Two(s)
    {
      if Two(s) {
        UsersDiffer(s, Opponent(s));
      }
    }

    method FindOpponentSocket(socket: Socket) returns (r: Option<Socket>)
      requires Valid()
      ensures r == if Two(socket) then Some(Opponent(socket)) else None
    {
      if socket !in connections {
        return None;
      }
      var todo := connections;
      while todo != {}
        invariant todo <= connections
        invariant forall s :: s in connections && s !in todo ==> s == socket
        decreases todo
      {
        var target :| target in todo;
        if target != socket {
          TwoFrom(socket, target);
          return Some(target);
        }
        todo := todo - {target};
      }
      NoTwo(socket);
      return None;
    }

    method FindUserBySocket(socket: Socket) returns (user: User?)
      requires Valid()
      ensures if socket in connections then user == UserAt(socket) else user == null
    {
      if socket !in socketUserNumber || socketUserNumber[socket] !in users {
        return null;
      }
      return users[socketUserNumber[socket]];
    }

    // User-based and socket-based lookup name the same player.
    method FindOpponentUser(socket: Socket) returns (user: User?)
      requires Valid()
      ensures if Two(socket) then user == UserAt(Opponent(socket)) && user != UserAt(socket) else user == null
    {
      if |users| != 2 {
        return null;
      }
      var currentUser := FindUserBySocket(socket);
      if currentUser == null {
        return null;
      }
      var todo := users.Values;
      while todo != {}
        invariant todo <= users.Values
        invariant forall n :: n in users && users[n] !in todo ==> users[n] == currentUser
        decreases todo
      {
        var u :| u in todo;
        if u != currentUser {
          ghost var n :| n in users && users[n] == u;
          TwoFrom(socket, socketOf[n]);
          return u;
        }
        todo := todo - {u};
      }
      AloneInRoom(socket);
      return null;
    }

    method GetOpponentSocket(socket: Socket) returns (r: Option<Socket>)
      requires Valid()
      ensures r == if Two(socket) then Some(Opponent(socket)) else None
    {
      r := FindOpponentSocket(socket);
    }

    // ---- sending ---------------------------------------------------------------------------

    method CollectBroadcast(pending: seq<PendingSend>, message: Msg, sender: Socket, target: TargetType)
      returns (more: seq<PendingSend>)
      ensures forall s ::
        For(more, s) == AddedIf(s in connections && Targets(target, sender, s), For(pending, s), message)
    {
      more := pending;
      var todo := connections;
      while todo != {}
        invariant todo <= connections
        invariant forall s ::
          For(more, s) == AddedIf(s in connections - todo && Targets(target, sender, s), For(pending, s), message)
        decreases todo
      {
        var t :| t in todo;
        var shouldSend := match target
          case ToSelf => t == sender
          case ToOthers => t != sender
          case ToAll => true;
        if shouldSend {
          ForAppend(more, PendingSend(t, message));
          more := more + [PendingSend(t, message)];
        }
        todo := todo - {t};
      }
    }

    method SendPending(pending: seq<PendingSend>)
      requires Valid()
      modifies this`outbox
      ensures Valid() && old(outbox).Keys <= outbox.Keys
      ensures forall s :: s in old(outbox) ==> outbox[s] == old(outbox[s]) + For(pending, s)
      ensures forall s {:trigger SideAt(s)} :: s in connections ==> SideAt(s) == old(SideAt(s)).Told(For(pending, s))
      ensures forall s {:trigger Duel(s)} ::
        Two(s) ==> Duel(s) == old(Duel(s)).Say(For(pending, s), For(pending, Opponent(s)))
    {
      hide IndexesAgree;
      for i := 0 to |pending|
        invariant old(outbox).Keys <= outbox.Keys
        invariant forall s :: s in old(outbox) ==> outbox[s] == old(outbox[s]) + For(pending[..i], s)
      {
        var p := pending[i];
        ForAppend(pending[..i], p);
        assert pending[..i + 1] == pending[..i] + [p];
        outbox := outbox[p.socket := (if p.socket in outbox then outbox[p.socket] else []) + [p.message]];
      }
      assert pending[..|pending|] == pending;
      forall s | Two(s) ensures Duel(s) == old(Duel(s)).Say(For(pending, s), For(pending, Opponent(s))) {
        assert s in connections && Opponent(s) in connections;
        assert SideAt(s) == old(SideAt(s)).Told(For(pending, s));
        assert SideAt(Opponent(s)) == old(SideAt(Opponent(s))).Told(For(pending, Opponent(s)));
      }
    }

    method BroadcastMessage(message: Msg, sender: Socket, target: TargetType)
      requires Valid()
      modifies this`outbox
      ensures Valid()
      ensures forall s :: s in connections ==>
        outbox[s] == if Targets(target, sender, s) then old(outbox[s]) + [message] else old(outbox[s])
      ensures Two(sender) ==> Duel(sender) == S.Broadcast(old(Duel(sender)), message, target)
      ensures target.ToAll? ==> Sides() == Table.ToldAll(old(Sides()), message)
    {
      hide IndexesAgree, For, UserAt, SideAt, Duel, S.Side.Told;
      Deliver(message, sender, target);
      assert target.ToAll? ==> forall s :: s in connections ==> SideAt(s) == old(SideAt(s)).Told([message]);
    }

    // The same, for each single member.
    method Deliver(message: Msg, sender: Socket, target: TargetType)
      requires Valid()
      modifies this`outbox
      ensures Valid()
      ensures forall s :: s in connections ==>
        outbox[s] == if Targets(target, sender, s) then old(outbox[s]) + [message] else old(outbox[s])
      ensures Two(sender) ==> Duel(sender) == S.Broadcast(old(Duel(sender)), message, target)
      ensures forall s {:trigger SideAt(s)} ::
        s in connections && Targets(target, sender, s) ==> SideAt(s) == old(SideAt(s)).Told([message])
    {
      hide IndexesAgree, For, Table.Opponent;
      var pending := CollectBroadcast([], message, sender, target);
      SendPending(pending);
      assert forall s :: s in connections && Targets(target, sender, s) ==> For(pending, s) == [message];
    }

    // In a room with a single member, that member is the whole room.
    lemma Alone(s: Socket)
      requires Valid() && s in connections && !Two(s)
      ensures connections == {s} && |users| == 1
    {
      if t :| t in connections && t != s {
        TwoFrom(s, t);
      }
      assert connections == {s};
    }

    // ---- message collection ----------------------------------------------------------------

    method CollectMyCardUpdate(pending: seq<PendingSend>, userSocket: Socket, cards: Card)
      returns (more: seq<PendingSend>)
      requires userSocket in connections
      ensures For(more, userSocket) ==
        For(pending, userSocket) + [MyCard(FrontFace, cards.front), MyCard(BackFace, cards.back)]
      ensures forall s :: s != userSocket ==> For(more, s) == For(pending, s)
    {
      more := CollectBroadcast(pending, MyCard(FrontFace, cards.front), userSocket, ToSelf);
      more := CollectBroadcast(more, MyCard(BackFace, cards.back), userSocket, ToSelf);
    }

    method CollectBetUpdate(pending: seq<PendingSend>, userSocket: Socket, face: Face, amount: int)
      returns (more: seq<PendingSend>)
      ensures forall s :: s in connections ==>
        For(more, s) == For(pending, s) + [BetUpdate(Perspective(s, userSocket), face, amount)]
    {
      more := CollectBroadcast(pending, BetUpdate(Mine, face, amount), userSocket, ToSelf);
      more := CollectBroadcast(more, BetUpdate(Others, face, amount), userSocket, ToOthers);
    }

    method CollectChipUpdate(pending: seq<PendingSend>, userSocket: Socket, chips: int)
      returns (more: seq<PendingSend>)
      ensures forall s :: s in connections ==>
        For(more, s) == For(pending, s) + [ChipUpdate(Perspective(s, userSocket), chips)]
    {
      more := CollectBroadcast(pending, ChipUpdate(Mine, chips), userSocket, ToSelf);
      more := CollectBroadcast(more, ChipUpdate(Others, chips), userSocket, ToOthers);
    }

    // ---- members ---------------------------------------------------------------------------

    // The connection is given by its socket, if there is one; earlier messages to it stay in its outbox. In any phase
    // of the game, an added user has joined the table, and a table that has no seat adds none.
    method AddUser(userNumber: UserNumber, userID: string, connection: Option<Socket>) returns (ok: bool)
      requires Valid()
      modifies this
      ensures Valid()
      ensures ok <==>
        && connection.Some? && connection.value != INVALID_SOCKET && connection.value !in old(connections)
        && old(|users|) < 2 && userNumber !in old(users)
      ensures !ok ==> unchanged(this)
      ensures ok ==>
        && connections == old(connections) + {connection.value}
        && socketUserNumber == old(socketUserNumber)[connection.value := userNumber]
        && userNumber in users && users == old(users)[userNumber := users[userNumber]]
        && fresh(users[userNumber]) && users[userNumber].ID == userID && !users[userNumber].isReady
        && dealerChips == old(dealerChips) && connection.value in outbox
        && (forall s :: s in old(outbox) ==> s in outbox && outbox[s] == old(outbox[s]))
        && (connection.value !in old(outbox) ==> outbox[connection.value] == [])
      ensures ok ==> forall phase ::
        var joined := Table.Step(old(AsTable(phase)), Table.Join(connection.value));
        AsTable(phase) == Table.WithLog(joined, connection.value, outbox[connection.value])
      ensures !ok && connection.Some? && connection.value != INVALID_SOCKET && userNumber !in old(users) ==>
        forall phase :: Table.Step(old(AsTable(phase)), Table.Join(connection.value)) == old(AsTable(phase))
    {
      hide IndexesAgree, Indexed, For, Sides, SideAt, UserAt, Table.WithLog, Table.Step;
      SeatsAgree();
      ok := Admit(userNumber, userID, connection);
      if ok {
        forall phase
          ensures var joined := Table.Step(old(AsTable(phase)), Table.Join(connection.value));
            AsTable(phase) == Table.WithLog(joined, connection.value, outbox[connection.value])
        {
          Table.Joined(old(AsTable(phase)), connection.value, outbox[connection.value]);
        }
      } else if connection.Some? && connection.value != INVALID_SOCKET && userNumber !in users {
        forall phase ensures Table.Step(old(AsTable(phase)), Table.Join(connection.value)) == old(AsTable(phase)) {
          Table.NotJoined(old(AsTable(phase)), connection.value);
        }
      }
    }

    // The checks and the change of addUser.
    method Admit(userNumber: UserNumber, userID: string, connection: Option<Socket>) returns (ok: bool)
      requires Valid()
      modifies this
      ensures Valid()
      ensures ok <==>
        && connection.Some? && connection.value != INVALID_SOCKET && connection.value !in old(connections)
        && old(|users|) < 2 && userNumber !in old(users)
      ensures !ok ==> unchanged(this)
      ensures ok ==>
        && connections == old(connections) + {connection.value}
        && socketUserNumber == old(socketUserNumber)[connection.value := userNumber]
        && userNumber in users && users == old(users)[userNumber := users[userNumber]]
        && fresh(users[userNumber]) && users[userNumber].ID == userID && !users[userNumber].isReady
        && dealerChips == old(dealerChips) && connection.value in outbox
        && (forall s :: s in old(outbox) ==> s in outbox && outbox[s] == old(outbox[s]))
        && (connection.value !in old(outbox) ==> outbox[connection.value] == [])
      ensures ok ==>
        && |old(Sides())| < 2 && connection.value !in old(Sides())
        && Sides() == old(Sides())[connection.value := Table.NEWCOMER.(log := outbox[connection.value])]
    {
      hide IndexesAgree, For, Sides;
      EveryConnectionHasAUser();
      SeatsAgree();
      if connection.None? {
        return false;
      }
      var socket := connection.value;
      if socket == INVALID_SOCKET {
        return false;
      }
      if |users| >= 2 {
        return false;
      }
      if userNumber in users {
        return false;
      }
      if socket in connections {
        return false;
      }
      if socket in socketUserNumber {
        return false;
      }
      var user := new User(userNumber, userID);
      SeatMember(user, socket);
      return true;
    }

    // A new member takes its seat beside the other.
    method SeatMember(user: User, socket: Socket)
      requires Valid() && |users| < 2 && user.userNumber !in users && socket !in connections && socket != INVALID_SOCKET
      modifies this
      ensures Valid() && dealerChips == old(dealerChips)
      ensures connections == old(connections) + {socket} && users == old(users)[user.userNumber := user]
      ensures socketUserNumber == old(socketUserNumber)[socket := user.userNumber]
      ensures forall s :: s in old(outbox) ==> s in outbox && outbox[s] == old(outbox[s])
      ensures socket in outbox && (socket !in old(outbox) ==> outbox[socket] == [])
      ensures Sides() == old(Sides())[socket := user.AsSide(outbox[socket])]
    {
      hide IndexesAgree, For;
      EveryConnectionHasAUser();
      InsertMember(user, socket);
      forall s | s in old(connections) ensures SideAt(s) == old(SideAt(s)) {
        assert s != socket && socketUserNumber[s] == old(socketUserNumber[s]) && old(socketUserNumber[s] in users);
        assert UserAt(s) == old(UserAt(s));
      }
      assert SideAt(socket) == user.AsSide(outbox[socket]);
    }

    lemma SeatsAgree()
      requires Valid()
      ensures Sides().Keys == connections && |Sides()| == |users|
    {
      assert |Sides()| == |Sides().Keys|;
    }

    // The three indexes take in the new member together.
    method InsertMember(user: User, socket: Socket)
      requires Valid() && |users| < 2 && user.userNumber !in users && socket !in connections && socket != INVALID_SOCKET
      modifies this
      ensures Valid() && dealerChips == old(dealerChips)
      ensures connections == old(connections) + {socket} && users == old(users)[user.userNumber := user]
      ensures socketUserNumber == old(socketUserNumber)[socket := user.userNumber] && UserAt(socket) == user
      ensures forall s :: s in old(outbox) ==> s in outbox && outbox[s] == old(outbox[s])
      ensures socket in outbox && (socket !in old(outbox) ==> outbox[socket] == [])
    {
      hide IndexesAgree;
      AddKeepsIndexes(connections, users, socketUserNumber, socketOf, socket, user);
      users := users[user.userNumber := user];
      socketUserNumber := socketUserNumber[socket := user.userNumber];
      connections := connections + {socket};
      socketOf := socketOf[user.userNumber := socket];
      outbox := outbox[socket := if socket in outbox then outbox[socket] else []];
    }

    ghost predicate IsMember(userNumber: UserNumber, socket: Socket)
      reads this
    {
      socket in connections && socket in socketUserNumber && socketUserNumber[socket] == userNumber
    }

    method RemoveUser(userNumber: UserNumber, userID: string, socket: Socket, gameWasRunning: bool)
      returns (removed: bool)
      requires Valid()
      modifies this, users.Values
      ensures Valid()
      ensures removed <==> old(IsMember(userNumber, socket))
      ensures !removed ==> Untouched()
      ensures removed ==>
        && connections == old(connections) - {socket}
        && users == old(users) - {userNumber}
        && socketUserNumber == old(socketUserNumber) - {socket}
        && dealerChips == 0
        && socket in outbox && socket in old(outbox) && outbox[socket] == old(outbox[socket]) + [ExitComplete]
        && (forall u: User :: u in users.Values ==> !u.isReady && u.AsSide([]) == S.Fresh([]))
        && (forall s :: s in connections ==>
              outbox[s] == old(outbox[s]) + [Exited(old(users[userNumber]).ID)] + S.If(gameWasRunning, GameAborted))
    {
      hide IndexesAgree, For, Indexed, SideAt, Duel, Two, Opponent, UserAt;
      EveryConnectionHasAUser();
      if userNumber !in users || socket !in socketUserNumber || socketUserNumber[socket] != userNumber
        || socket !in connections {
        return false;
      }
      var exitMessage := Exited(users[userNumber].ID);
      var pending := CollectFarewell(socket, exitMessage);
      EraseMember(userNumber, socket);
      if gameWasRunning {
        pending := CollectBroadcast(pending, GameAborted, socket, ToAll);
      }
      SendPending(pending);
      return true;
    }

    method CollectFarewell(socket: Socket, exitMessage: Msg) returns (pending: seq<PendingSend>)
      requires socket in connections
      ensures For(pending, socket) == [ExitComplete]
      ensures forall s :: s in connections && s != socket ==> For(pending, s) == [exitMessage]
    {
      hide For;
      pending := CollectBroadcast([], ExitComplete, socket, ToSelf);
      pending := CollectBroadcast(pending, exitMessage, socket, ToOthers);
    }

    // The state part of removeUser.
    method EraseMember(userNumber: UserNumber, socket: Socket)
      requires Valid() && IsMember(userNumber, socket)
      modifies this`connections, this`users, this`socketUserNumber, this`socketOf, this`dealerChips, users.Values
      ensures Valid()
      ensures connections == old(connections) - {socket}
      ensures users == old(users) - {userNumber}
      ensures socketUserNumber == old(socketUserNumber) - {socket}
      ensures dealerChips == 0
      ensures forall u: User :: u in users.Values ==> !u.isReady && u.AsSide([]) == S.Fresh([])
    {
      hide IndexesAgree;
      RemoveKeepsIndexes(connections, users, socketUserNumber, socketOf, socket, userNumber);
      ValuesShrink(users, userNumber);
      users := users - {userNumber};
      socketUserNumber := socketUserNumber - {socket};
      connections := connections - {socket};
      socketOf := socketOf - {userNumber};
      dealerChips := 0;
      ResetRemaining();
    }

    // The remaining members start over.
    method ResetRemaining()
      modifies users.Values
      ensures forall u: User :: u in users.Values ==> !u.isReady && u.AsSide([]) == S.Fresh([])
    {
      var todo := users.Values;
      while todo != {}
        invariant todo <= users.Values
        invariant forall u: User :: u in users.Values && u !in todo ==> !u.isReady && u.AsSide([]) == S.Fresh([])
        decreases todo
      {
        var u :| u in todo;
        u.isReady := false;
        u.chips := DEFAULT_CHIPS;
        u.Clear();
        todo := todo - {u};
      }
    }

    // Both players learn who the other one is, and whether they are ready.
    method UserUpdate(clientSocket: Socket)
      requires Valid()
      modifies this`outbox
      ensures Valid()
      ensures !Two(clientSocket) ==> unchanged(this)
      ensures Two(clientSocket) ==>
        Duel(clientSocket) == old(Duel(clientSocket)).Say(Profile(Opponent(clientSocket)), Profile(clientSocket))
    {
      hide IndexesAgree, For, Table.Opponent, S.Side.Told;
      var currentUser := FindUserBySocket(clientSocket);
      var opponentUser := FindOpponentUser(clientSocket);
      if currentUser == null || opponentUser == null {
        return;
      }
      var pending := CollectProfiles(clientSocket, currentUser, opponentUser);
      SendPending(pending);
    }

    method CollectProfiles(clientSocket: Socket, currentUser: User, opponentUser: User)
      returns (pending: seq<PendingSend>)
      ensures forall s :: s in connections ==>
        var user := if s == clientSocket then opponentUser else currentUser;
        For(pending, s) == [UpdateId(user.ID), UpdateReady(user.isReady)]
    {
      hide For;
      pending := CollectBroadcast([], UpdateId(currentUser.ID), clientSocket, ToOthers);
      pending := CollectBroadcast(pending, UpdateReady(currentUser.isReady), clientSocket, ToOthers);
      pending := CollectBroadcast(pending, UpdateId(opponentUser.ID), clientSocket, ToSelf);
      pending := CollectBroadcast(pending, UpdateReady(opponentUser.isReady), clientSocket, ToSelf);
    }

    // Only a member of a full room can change its ready flag, and nothing else changes.
    method HandleUserReady(clientSocket: Socket, message: string)
      requires Valid()
      modifies this`outbox, users.Values
      ensures Valid()
      ensures !(Two(clientSocket) && message in {DONE, READY}) ==> Untouched()
      ensures Two(clientSocket) && message in {DONE, READY} ==>
        && UserAt(clientSocket).isReady == (message == DONE)
        && UserAt(Opponent(clientSocket)).isReady == old(UserAt(Opponent(clientSocket)).isReady)
        && Duel(clientSocket) == old(Duel(clientSocket)).Say([], [UpdateReady(message == DONE)])
    {
      hide IndexesAgree, For, Table.Opponent, S.Side.Told;
      var readyState := false;
      if message == DONE {
        readyState := true;
      } else if message == READY {
        readyState := false;
      } else {
        return;
      }
      var currentUser := FindUserBySocket(clientSocket);
      var opponentUser := FindOpponentUser(clientSocket);
      if currentUser == null || opponentUser == null {
        return;
      }
      currentUser.isReady := readyState;
      var pending := CollectBroadcast([], UpdateReady(readyState), clientSocket, ToOthers);
      assert For(pending, clientSocket) == [] && For(pending, Opponent(clientSocket)) == [UpdateReady(readyState)];
      SendPending(pending);
    }

    method AllUserStartReadyState() returns (ready: bool)
      requires Valid()
      ensures ready <==> |users| == 2 && forall n :: n in users ==> users[n].isReady
    {
      if |users| != 2 {
        return false;
      }
      var todo := users.Values;
      while todo != {}
        invariant todo <= users.Values
        invariant forall n :: n in users && users[n] !in todo ==> users[n].isReady
        decreases todo
      {
        var u :| u in todo;
        if !u.isReady {
          ghost var n :| n in users && users[n] == u;
          return false;
        }
        todo := todo - {u};
      }
      return true;
    }

    predicate IsRoomEmpty()
      reads this
    {
      connections == {}
    }

    function GetRoomCount(): nat
      reads this
    {
      |users|
    }

    // ---- the game ----------------------------------------------------------------------------

    // All of a new game, or only what a new round resets.
    method ResetAllUsers(wholeGame: bool)
      requires Valid()
      modifies this`dealerChips, users.Values
      ensures ReadyKept()
      ensures forall s {:trigger Duel(s)} :: Two(s) && wholeGame ==> Duel(s) == S.ResetAllUsers(old(Duel(s)))
      ensures dealerChips == if wholeGame then 0 else old(dealerChips)
      ensures forall u: User :: u in users.Values ==>
        u.AsSide([]) == S.Fresh([]).(chips := if wholeGame then DEFAULT_CHIPS else old(u.chips))
    {
      hide IndexesAgree;
      if wholeGame {
        dealerChips := 0;
      }
      var todo := users.Values;
      while todo != {}
        invariant todo <= users.Values && dealerChips == if wholeGame then 0 else old(dealerChips)
        invariant forall u: User :: u in users.Values ==> u.isReady == old(u.isReady)
        invariant forall u: User :: u in todo ==> u.chips == old(u.chips)
        invariant forall u: User :: u in users.Values && u !in todo ==>
          u.AsSide([]) == S.Fresh([]).(chips := if wholeGame then DEFAULT_CHIPS else old(u.chips))
        decreases todo
      {
        var u :| u in todo;
        if wholeGame {
          u.chips := DEFAULT_CHIPS;
        }
        u.Clear();
        todo := todo - {u};
      }
    }

    method UpdateCards(socket: Socket, deal: Deal)
      requires Valid()
      modifies this`outbox, users.Values
      ensures Valid() && ReadyKept()
      ensures if Two(socket) then Duel(socket) == S.UpdateCards(old(Duel(socket)), deal) else Untouched()
      ensures Two(socket) ==>
        var (me, opp) := (UserAt(socket), UserAt(Opponent(socket)));
        && me.frontCard == deal.mine.front && me.backCard == deal.mine.back
        && opp.frontCard == deal.theirs.front && opp.backCard == deal.theirs.back
    {
      hide IndexesAgree, For, Table.Opponent, S.Side.Told;
      var currentUser := FindUserBySocket(socket);
      var opponentUser := FindOpponentUser(socket);
      var opponentSocket := FindOpponentSocket(socket);
      if currentUser == null || opponentUser == null || opponentSocket.None? {
        return;
      }
      currentUser.frontCard, currentUser.backCard := deal.mine.front, deal.mine.back;
      opponentUser.frontCard, opponentUser.backCard := deal.theirs.front, deal.theirs.back;
      var pending := CollectCards(socket, opponentSocket.value, deal);
      SendPending(pending);
    }

    method CollectCards(socket: Socket, opponentSocket: Socket, deal: Deal) returns (pending: seq<PendingSend>)
      requires socket in connections && opponentSocket in connections && socket != opponentSocket
      ensures For(pending, socket) == S.CardNews(deal.mine, deal.theirs)
      ensures For(pending, opponentSocket) == S.CardNews(deal.theirs, deal.mine)
    {
      hide IndexesAgree, For;
      pending := CollectMyCardUpdate([], socket, deal.mine);
      pending := CollectMyCardUpdate(pending, opponentSocket, deal.theirs);
      pending := CollectBroadcast(pending, OtherFrontCard(deal.theirs.front), socket, ToSelf);
      pending := CollectBroadcast(pending, OtherFrontCard(deal.mine.front), opponentSocket, ToSelf);
    }

    method BetChips(socket: Socket, count: int, betType: BetType) returns (result: BetResult)
      requires Valid()
      modifies this`outbox, users.Values
      ensures Valid() && ReadyKept()
      ensures if Two(socket) then (Duel(socket), result) == S.BetChips(old(Duel(socket)), Command(betType, count))
              else result.BetImpossible? && Untouched()
    {
      hide IndexesAgree, For, Table.Opponent, S.Side.Told, S.BetChips;
      var currentUser := FindUserBySocket(socket);
      var opponentUser := FindOpponentUser(socket);
      if currentUser == null || opponentUser == null {
        return BetImpossible;
      }
      var pending;
      result, pending := Decide(socket, currentUser, opponentUser, count, betType);
      SendPending(pending);
    }

    // The bet and its result; with the collected messages sent, the room is as the rules say.
    method Decide(socket: Socket, currentUser: User, opponentUser: User, count: int, betType: BetType)
      returns (result: BetResult, pending: seq<PendingSend>)
      requires Valid() && Two(socket)
      requires currentUser == UserAt(socket) && opponentUser == UserAt(Opponent(socket)) && currentUser != opponentUser
      modifies users.Values
      ensures ReadyKept()
      ensures var (after, r) := S.BetChips(old(Duel(socket)), Command(betType, count));
        result == r && Duel(socket).Say(For(pending, socket), For(pending, Opponent(socket))) == after
    {
      hide IndexesAgree, For, Table.Opponent, S.Side.Told, S.PlaceBet, S.BetNews, BettingRules.Evaluate;
      hide S.CanDeduct;
      var currentState := BettingRules.BettingState(
        currentUser.chips, currentUser.frontBet, currentUser.backBet, currentUser.betType);
      var opponentState := BettingRules.BettingState(
        opponentUser.chips, opponentUser.frontBet, opponentUser.backBet, opponentUser.betType);
      var decision := BettingRules.Evaluate(currentState, opponentState, count, betType);
      ghost var d := Duel(socket);
      result, pending := CarryOut(decision, socket, count, betType);
      assert Duel(socket) == if result.BetImpossible? then d
                             else d.(me := S.PlaceBet(d.me, Command(betType, count), decision.cost));
    }

    // What one player is told about a bet that was placed.
    ghost function BetReport(socket: Socket, whose: Whose): seq<Msg>
      reads this, users.Values
      requires Valid() && socket in connections
    {
      [ChipUpdate(whose, UserAt(socket).chips)] + S.BetNews(SideAt(socket), whose)
    }

    // The decided bet, if it is possible and can be paid.
    method CarryOut(decision: BettingRules.BetDecision, socket: Socket, count: int, betType: BetType)
      returns (result: BetResult, pending: seq<PendingSend>)
      requires Valid() && socket in connections
      modifies UserAt(socket)`chips, UserAt(socket)`frontBet, UserAt(socket)`backBet, UserAt(socket)`betType
      ensures result == if S.CanDeduct(old(SideAt(socket)), decision.cost) then decision.result else BetImpossible
      ensures if result.BetImpossible? then
                SideAt(socket) == old(SideAt(socket))
                && forall s :: s in connections ==> For(pending, s) == S.If(s == socket, BettingRefused)
              else
                SideAt(socket) == S.PlaceBet(old(SideAt(socket)), Command(betType, count), decision.cost)
                && forall s :: s in connections ==> For(pending, s) == BetReport(socket, Perspective(s, socket))
    {
      hide IndexesAgree, For;
      result, pending := BetImpossible, [];
      if decision.result.BetImpossible? {
        pending := CollectBroadcast(pending, BettingRefused, socket, ToSelf);
        return;
      }
      var deducted;
      deducted, pending := DeductBet(socket, decision.cost, pending);
      if !deducted {
        pending := CollectBroadcast(pending, BettingRefused, socket, ToSelf);
      } else {
        pending := UpdateBetInfo(socket, count, betType, pending);
        result := decision.result;
      }
    }

    method DeductBet(socket: Socket, amount: int, pending: seq<PendingSend>)
      returns (ok: bool, more: seq<PendingSend>)
      requires Valid() && socket in connections
      modifies UserAt(socket)`chips
      ensures ok <==> S.CanDeduct(old(SideAt(socket)), amount)
      ensures UserAt(socket).chips == old(UserAt(socket).chips) - if ok then amount else 0
      ensures !ok ==> more == pending
      ensures ok ==> forall s :: s in connections ==>
        For(more, s) == For(pending, s) + [ChipUpdate(Perspective(s, socket), UserAt(socket).chips)]
    {
      hide IndexesAgree, For;
      more := pending;
      if amount <= 0 {
        return false, more;
      }
      var user := FindUserBySocket(socket);
      if user == null || user.chips < amount {
        return false, more;
      }
      user.chips := user.chips - amount;
      more := CollectChipUpdate(pending, socket, user.chips);
      return true, more;
    }

    // The new bets of the player, and the news about them for both perspectives.
    method UpdateBetInfo(socket: Socket, count: int, betType: BetType, pending: seq<PendingSend>)
      returns (more: seq<PendingSend>)
      requires Valid() && socket in connections
      modifies UserAt(socket)`frontBet, UserAt(socket)`backBet, UserAt(socket)`betType
      ensures SideAt(socket) == S.PlaceBet(old(SideAt(socket)), Command(betType, count), 0)
      ensures forall s :: s in connections ==>
        For(more, s) == For(pending, s) + S.BetNews(SideAt(socket), Perspective(s, socket))
    {
      hide IndexesAgree, For;
      more := pending;
      var user := FindUserBySocket(socket);
      if user == null {
        return;
      }
      user.betType := betType;
      if betType == Front || betType == Both {
        user.frontBet := user.frontBet + count;
      }
      if betType == Back || betType == Both {
        user.backBet := user.backBet + count;
      }
      more := CollectBetNews(socket, user, more);
    }

    method CollectBetNews(socket: Socket, user: User, pending: seq<PendingSend>) returns (more: seq<PendingSend>)
      ensures forall s :: s in connections ==>
        For(more, s) == For(pending, s) + S.BetNews(user.AsSide([]), Perspective(s, socket))
    {
      hide For;
      more := pending;
      if user.betType == Front || user.betType == Both {
        more := CollectBetUpdate(more, socket, FrontFace, user.frontBet);
      }
      if user.betType == Back || user.betType == Both {
        more := CollectBetUpdate(more, socket, BackFace, user.backBet);
      }
      if user.betType == Both {
        more := CollectBroadcast(more, BothMark(Mine), socket, ToSelf);
        more := CollectBroadcast(more, BothMark(Others), socket, ToOthers);
      }
    }

    lemma FacesDecide(
      me: User, opp: User, current: RoundResolver.PlayerRoundState, opponent: RoundResolver.PlayerRoundState)
      requires current == RoundResolver.PlayerRoundState(me.frontCard, me.backCard, me.betType)
      requires opponent == RoundResolver.PlayerRoundState(opp.frontCard, opp.backCard, opp.betType)
      ensures var r := RoundResolver.Resolve(current, opponent, false);
        && (r.RoundImpossible? <==> me.Faces() == {} || opp.Faces() == {} || (me.betType.Both? && opp.betType.Both?))
        && (!r.RoundImpossible? ==>
              r == RoundResolver.Verdict(me.Faces(), opp.Faces(), me.betType.Both?, opp.betType.Both?))
    {
      hide RoundResolver.Resolve, RoundResolver.Verdict;
      assert me.betType in {Front, Both} ==> me.frontCard in me.Faces();
      assert me.betType.Back? ==> me.backCard in me.Faces();
      assert opp.betType in {Front, Both} ==> opp.frontCard in opp.Faces();
      assert opp.betType.Back? ==> opp.backCard in opp.Faces();
      RoundResolver.ResolveDecides(current, opponent);
      if !RoundResolver.Resolve(current, opponent, false).RoundImpossible? {
        RoundResolver.ResolveIsByFaces(current, opponent);
      }
    }

    method CompareCard(socket: Socket, actionType: BetType) returns (result: RoundResult)
      requires Valid()
      modifies users.Values
      ensures ReadyKept()
      ensures Two(socket) ==>
        var d := old(Duel(socket));
        && result == RoundResolver.Resolve(d.me.Round(), d.opp.Round(), actionType.Die?)
        && Duel(socket) == if result.RoundImpossible? then d else S.ClearSides(d)
      ensures !Two(socket) ==> result.RoundImpossible? && Untouched()
      ensures Two(socket) && !actionType.Die? ==>
        var (me, opp) := (UserAt(socket), UserAt(Opponent(socket)));
        && (result.RoundImpossible? <==>
              old(me.Faces()) == {} || old(opp.Faces()) == {} || (old(me.betType).Both? && old(opp.betType).Both?))
        && (!result.RoundImpossible? ==>
              result ==
                RoundResolver.Verdict(old(me.Faces()), old(opp.Faces()), old(me.betType).Both?, old(opp.betType).Both?))
    {
      hide IndexesAgree, For, Table.Opponent, RoundResolver.Resolve;
      var currentUser := FindUserBySocket(socket);
      var opponentUser := FindOpponentUser(socket);
      if currentUser == null || opponentUser == null {
        return RoundImpossible;
      }
      var current := RoundResolver.PlayerRoundState(currentUser.frontCard, currentUser.backCard, currentUser.betType);
      var opponent := RoundResolver.PlayerRoundState(
        opponentUser.frontCard, opponentUser.backCard, opponentUser.betType);
      FacesDecide(currentUser, opponentUser, current, opponent);
      result := RoundResolver.Resolve(current, opponent, actionType == Die);
      if result != RoundImpossible {
        currentUser.betType := Unset;
        opponentUser.betType := Unset;
      }
    }

    // A final result also takes back both ready flags.
    method EndCheck(socket: Socket) returns (result: MatchResult)
      requires Valid()
      modifies users.Values
      ensures result == if Two(socket) then S.EndCheck(old(Duel(socket))) else MatchImpossible
      ensures if result.FinalWin? || result.FinalLose? then NobodyReady() else ReadyKept()
      ensures Two(socket) ==> Duel(socket) == old(Duel(socket))
    {
      hide IndexesAgree, For, Table.Opponent;
      var currentUser := FindUserBySocket(socket);
      var opponentUser := FindOpponentUser(socket);
      if currentUser == null || opponentUser == null {
        return MatchImpossible;
      }
      TheTwoUsers(socket);
      if currentUser.chips <= 0 {
        currentUser.isReady := false;
        opponentUser.isReady := false;
        return FinalLose;
      }
      if opponentUser.chips <= 0 {
        currentUser.isReady := false;
        opponentUser.isReady := false;
        return FinalWin;
      }
      return Progress;
    }

    ghost predicate NobodyReady()
      reads this, users.Values
    {
      forall u: User :: u in users.Values ==> !u.isReady
    }

    lemma TheTwoUsers(s: Socket)
      requires Valid() && Two(s)
      ensures forall u: User :: u in users.Values ==> u == UserAt(s) || u == UserAt(Opponent(s))
    {
      forall u: User | u in users.Values ensures u == UserAt(s) || u == UserAt(Opponent(s)) {
        var n :| n in users && users[n] == u;
        assert socketOf[n] in {s, Opponent(s)};
      }
    }

    // Everybody is put on the face with the higher number, whatever they bet on before.
    method SpecialCase()
      requires Valid()
      modifies users.Values
      ensures ReadyKept()
      ensures forall s {:trigger Duel(s)} :: Two(s) ==> Duel(s) == S.SpecialCase(old(Duel(s)))
    {
      hide IndexesAgree, For, Table.Opponent;
      var todo := users.Values;
      while todo != {}
        invariant todo <= users.Values
        invariant forall u: User :: u in todo ==> unchanged(u)
        invariant forall u: User :: u in users.Values - todo ==> u.AsSide([]) == S.PickFace(old(u.AsSide([])))
        invariant forall u: User :: u in users.Values ==> u.isReady == old(u.isReady)
        decreases todo
      {
        var u :| u in todo;
        if u.frontCard < u.backCard {
          u.betType := Back;
        } else {
          u.betType := Front;
        }
        todo := todo - {u};
      }
      forall s | Two(s) ensures Duel(s) == S.SpecialCase(old(Duel(s))) {
        assert UserAt(s).AsSide([]) == S.PickFace(old(UserAt(s).AsSide([])));
        assert UserAt(Opponent(s)).AsSide([]) == S.PickFace(old(UserAt(Opponent(s)).AsSide([])));
      }
    }

    method CollectBasicBet(socket: Socket, amount: int)
      requires Valid()
      modifies this`outbox, this`dealerChips, users.Values
      ensures Valid() && ReadyKept()
      ensures if Two(socket) then Duel(socket) == S.CollectBasicBet(old(Duel(socket)), amount) else Untouched()
    {
      hide IndexesAgree, For, Table.Opponent, S.Side.Told, S.Pay;
      if amount <= 0 {
        return;
      }
      var currentUser := FindUserBySocket(socket);
      var opponentUser := FindOpponentUser(socket);
      var opponentSocket := FindOpponentSocket(socket);
      if currentUser == null || opponentUser == null || opponentSocket.None? {
        return;
      }
      if currentUser.chips < amount || opponentUser.chips < amount {
        return;
      }
      PayAnte(socket, currentUser, opponentUser, amount);
      var pending := CollectAmounts(socket, opponentSocket.value, currentUser.chips, opponentUser.chips);
      SendPending(pending);
    }

    method PayAnte(socket: Socket, currentUser: User, opponentUser: User, amount: int)
      requires Valid() && Two(socket)
      requires currentUser == UserAt(socket) && opponentUser == UserAt(Opponent(socket)) && currentUser != opponentUser
      modifies this`dealerChips, users.Values
      ensures ReadyKept()
      ensures var d := old(Duel(socket));
        Duel(socket) == S.Duel(S.Pay(d.me, amount), S.Pay(d.opp, amount), d.dealer + amount * 2)
    {
      hide IndexesAgree, For, Table.Opponent, S.Side.Told;
      currentUser.chips := currentUser.chips - amount;
      opponentUser.chips := opponentUser.chips - amount;
      dealerChips := dealerChips + amount * 2;
      currentUser.betType := Unset;
      opponentUser.betType := Unset;
    }

    method CollectAmounts(socket: Socket, opponentSocket: Socket, current: int, opponent: int)
      returns (pending: seq<PendingSend>)
      requires socket in connections && opponentSocket in connections && socket != opponentSocket
      ensures For(pending, socket) ==
        [ChipUpdate(Mine, current), ChipUpdate(Others, opponent), ChipUpdate(Dealers, dealerChips)]
      ensures For(pending, opponentSocket) ==
        [ChipUpdate(Others, current), ChipUpdate(Mine, opponent), ChipUpdate(Dealers, dealerChips)]
    {
      hide For;
      pending := CollectChipUpdate([], socket, current);
      pending := CollectChipUpdate(pending, opponentSocket, opponent);
      pending := CollectBroadcast(pending, ChipUpdate(Dealers, dealerChips), socket, ToAll);
    }

    // An invalid result leaves the room as it is.
    method SettleRound(socket: Socket, roundResult: RoundResult)
      requires Valid()
      modifies this`outbox, this`dealerChips, users.Values
      ensures Valid() && ReadyKept()
      ensures if Two(socket) then Duel(socket) == S.SettleRound(old(Duel(socket)), roundResult) else Untouched()
    {
      hide IndexesAgree, For, Table.Opponent, S.Side.Told, S.SettleRound;
      var currentUser := FindUserBySocket(socket);
      var opponentUser := FindOpponentUser(socket);
      var opponentSocket := FindOpponentSocket(socket);
      if currentUser == null || opponentUser == null || opponentSocket.None? {
        return;
      }
      var settled, pending := Settle(socket, opponentSocket.value, currentUser, opponentUser, roundResult);
      if !settled {
        return;
      }
      SendPending(pending);
    }

    // The settlement; with the collected messages sent, the room is as the rules say.
    method Settle(socket: Socket, opponentSocket: Socket, currentUser: User, opponentUser: User,
                  roundResult: RoundResult)
      returns (settled: bool, pending: seq<PendingSend>)
      requires Valid() && Two(socket) && opponentSocket == Opponent(socket)
      requires currentUser == UserAt(socket) && opponentUser == UserAt(opponentSocket) && currentUser != opponentUser
      modifies this`dealerChips, users.Values
      ensures ReadyKept()
      ensures !settled ==> unchanged(this) && Duel(socket) == S.SettleRound(old(Duel(socket)), roundResult)
      ensures settled ==>
        Duel(socket).Say(For(pending, socket), For(pending, opponentSocket))
          == S.SettleRound(old(Duel(socket)), roundResult)
    {
      hide IndexesAgree, For, Table.Opponent, S.Side.Told, SettlementRules.Settle, S.If, S.ClearBets;
      var state := SettlementRules.SettlementState(
        currentUser.chips, opponentUser.chips, currentUser.frontBet, currentUser.backBet,
        opponentUser.frontBet, opponentUser.backBet, dealerChips);
      var settlement := SettlementRules.Settle(state, roundResult);
      if settlement.None? {
        return false, [];
      }
      var outcome := settlement.value;
      var currentChipsChanged := currentUser.chips != outcome.currentChips;
      var opponentChipsChanged := opponentUser.chips != outcome.opponentChips;
      var dealerChipsChanged := dealerChips != outcome.dealerChips;
      PayOut(socket, currentUser, opponentUser, outcome);
      pending := CollectSettlement(socket, opponentSocket, dealerChipsChanged, currentChipsChanged,
                                   opponentChipsChanged, outcome);
      settled := true;
    }

    method PayOut(socket: Socket, currentUser: User, opponentUser: User, outcome: SettlementRules.SettlementResult)
      requires Valid() && Two(socket)
      requires currentUser == UserAt(socket) && opponentUser == UserAt(Opponent(socket)) && currentUser != opponentUser
      modifies this`dealerChips, users.Values
      ensures ReadyKept()
      ensures var d := old(Duel(socket));
        Duel(socket) == S.Duel(S.ClearBets(d.me).(chips := outcome.currentChips),
                               S.ClearBets(d.opp).(chips := outcome.opponentChips), outcome.dealerChips)
    {
      hide IndexesAgree, For, Table.Opponent, S.Side.Told;
      currentUser.chips := outcome.currentChips;
      opponentUser.chips := outcome.opponentChips;
      dealerChips := outcome.dealerChips;
      currentUser.frontBet, currentUser.backBet := 0, 0;
      opponentUser.frontBet, opponentUser.backBet := 0, 0;
    }

    // Only what changed is announced.
    method CollectSettlement(socket: Socket, opponentSocket: Socket, dealerChanged: bool, currentChanged: bool,
                             opponentChanged: bool, outcome: SettlementRules.SettlementResult)
      returns (pending: seq<PendingSend>)
      requires socket in connections && opponentSocket in connections && socket != opponentSocket
      ensures For(pending, socket) ==
        S.If(dealerChanged, ChipUpdate(Dealers, outcome.dealerChips))
        + S.If(currentChanged, ChipUpdate(Mine, outcome.currentChips))
        + S.If(opponentChanged, ChipUpdate(Others, outcome.opponentChips))
      ensures For(pending, opponentSocket) ==
        S.If(dealerChanged, ChipUpdate(Dealers, outcome.dealerChips))
        + S.If(currentChanged, ChipUpdate(Others, outcome.currentChips))
        + S.If(opponentChanged, ChipUpdate(Mine, outcome.opponentChips))
    {
      hide For;
      pending := [];
      if dealerChanged {
        pending := CollectBroadcast(pending, ChipUpdate(Dealers, outcome.dealerChips), socket, ToAll);
      }
      if currentChanged {
        pending := CollectChipUpdate(pending, socket, outcome.currentChips);
      }
      if opponentChanged {
        pending := CollectChipUpdate(pending, opponentSocket, outcome.opponentChips);
      }
    }

    method PrintCard(socket: Socket)
      requires Valid()
      modifies this`outbox
      ensures Valid()
      ensures if Two(socket) then Duel(socket) == S.PrintCard(old(Duel(socket))) else unchanged(this)
    {
      hide IndexesAgree, For, Table.Opponent, S.Side.Told;
      var currentUser := FindUserBySocket(socket);
      var opponentUser := FindOpponentUser(socket);
      var opponentSocket := FindOpponentSocket(socket);
      if currentUser == null || opponentUser == null || opponentSocket.None? {
        return;
      }
      var pending := CollectBackCards(socket, opponentSocket.value, currentUser, opponentUser);
      SendPending(pending);
    }

    // What each player learns about the other's back card.
    method CollectBackCards(socket: Socket, opponentSocket: Socket, currentUser: User, opponentUser: User)
      returns (pending: seq<PendingSend>)
      requires socket in connections && opponentSocket in connections && socket != opponentSocket
      ensures For(pending, socket) == S.PrintFor(currentUser.AsSide([]), opponentUser.AsSide([]))
      ensures For(pending, opponentSocket) == S.PrintFor(opponentUser.AsSide([]), currentUser.AsSide([]))
    {
      hide For;
      var currentBetType := currentUser.betType;
      var opponentBetType := opponentUser.betType;
      var currentRevealsBack := currentBetType == Back || currentBetType == Both;
      var opponentRevealsBack := opponentBetType == Back || opponentBetType == Both;
      pending := [];
      if opponentRevealsBack {
        pending := CollectBroadcast(pending, PrintBack(opponentUser.backCard), socket, ToSelf);
      } else if currentRevealsBack {
        pending := CollectBroadcast(pending, Wait, socket, ToSelf);
      }
      if currentRevealsBack {
        pending := CollectBroadcast(pending, PrintBack(currentUser.backCard), opponentSocket, ToSelf);
      } else if opponentRevealsBack {
        pending := CollectBroadcast(pending, Wait, opponentSocket, ToSelf);
      }
    }
  }
}
