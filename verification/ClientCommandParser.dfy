/** TwofacedPoker/Protocol/ClientCommandParser.cpp: what kind of command a message is, and its payload. */
module ClientCommandParser {
  import opened Foundation
  import BetCommandParser

  const GET_CHATTING_ROOM := "/Get_Chatting_Room"
  const EXIT_ROOM := "/Exit_Room"
  const LOGIN := "/Login"
  const USER_UPDATE := "/User_Update"
  const CLOSE_SOCKET := "/Close_Socket"
  const CREATE_CHATTING_ROOM := "/Create_Chatting_Room "
  const JOIN_CHATTING_ROOM := "/Join_Chatting_Room "
  const ROOM_EVENT := "/Room_Event "
  const GAME_CLIENT_EVENT := "/Game_Client_Event "
  const BETTING := " Betting "

  datatype Kind =
    | GetRooms | ExitRoom | Login | UserUpdate | CloseSocket
    | CreateRoom | JoinRoom | RoomEvent | GameEvent
    | ChatText

  datatype ClientCommand = ClientCommand(kind: Kind, payload: string)

  // The text before the payload; all of the message for commands without one.
  function WordOf(kind: Kind): string {
    match kind
    case GetRooms => GET_CHATTING_ROOM
    case ExitRoom => EXIT_ROOM
    case Login => LOGIN
    case UserUpdate => USER_UPDATE
    case CloseSocket => CLOSE_SOCKET
    case CreateRoom => CREATE_CHATTING_ROOM
    case JoinRoom => JOIN_CHATTING_ROOM
    case RoomEvent => ROOM_EVENT
    case GameEvent => GAME_CLIENT_EVENT
    case ChatText => ""
  }

  predicate IsFixed(kind: Kind) {
    kind.GetRooms? || kind.ExitRoom? || kind.Login? || kind.UserUpdate? || kind.CloseSocket?
  }

  function ExtractPayload(message: string, prefix: string): string
    requires BetCommandParser.StartsWith(message, prefix)
  {
    message[|prefix|..]
  }

  function Parse(message: string): ClientCommand {
    if message == WordOf(GetRooms) then ClientCommand(GetRooms, "")
    else if message == WordOf(ExitRoom) then ClientCommand(ExitRoom, "")
    else if message == WordOf(Login) then ClientCommand(Login, "")
    else if message == WordOf(UserUpdate) then ClientCommand(UserUpdate, "")
    else if message == WordOf(CloseSocket) then ClientCommand(CloseSocket, "")
    else if BetCommandParser.StartsWith(message, WordOf(CreateRoom)) then
      ClientCommand(CreateRoom, ExtractPayload(message, WordOf(CreateRoom)))
    else if BetCommandParser.StartsWith(message, WordOf(JoinRoom)) then
      ClientCommand(JoinRoom, ExtractPayload(message, WordOf(JoinRoom)))
    else if BetCommandParser.StartsWith(message, WordOf(RoomEvent)) then
      ClientCommand(RoomEvent, ExtractPayload(message, WordOf(RoomEvent)))
    else if BetCommandParser.StartsWith(message, WordOf(GameEvent)) then
      ClientCommand(GameEvent, ExtractPayload(message, WordOf(GameEvent)))
    else ClientCommand(ChatText, message)
  }

  function Render(c: ClientCommand): string { WordOf(c.kind) + c.payload }

  // Nothing of a message is lost: word and payload together are the message.
  lemma NothingIsLost(message: string)
    ensures Render(Parse(message)) == message
    ensures IsFixed(Parse(message).kind) ==> Parse(message).payload == ""
  {
    hide WordOf;
    var w := WordOf(Parse(message).kind);
    assert message + "" == message;
    if Parse(message).kind.ChatText? {
      assert WordOf(ChatText) + message == message by { NoWordForChat(); }
    } else if BetCommandParser.StartsWith(message, w) {
      assert message == message[..|w|] + message[|w|..];
    }
  }

  lemma NoWordForChat()
    ensures WordOf(ChatText) == ""
  {
  }

  // The third character tells the words apart.
  function Letter(kind: Kind): char {
    match kind
    case GetRooms => 'e' case ExitRoom => 'x' case Login => 'o' case UserUpdate => 's' case CloseSocket => 'l'
    case CreateRoom => 'r' case JoinRoom => 'o' case RoomEvent => 'o' case GameEvent => 'a'
    case ChatText => ' '
  }

  predicate Begins(message: string, kind: Kind) {
    |message| >= 3 && message[2] == Letter(kind)
    && (message[1] == 'L' <==> kind.Login?) && (message[1] == 'J' <==> kind.JoinRoom?)
  }

  lemma WordsBegin(kind: Kind)
    requires !kind.ChatText?
    ensures Begins(WordOf(kind), kind)
  {
  }

  lemma SameWord(message: string, k: Kind, l: Kind)
    requires Begins(message, k) && Begins(message, l) && !k.ChatText? && !l.ChatText?
    ensures k == l
  {
  }

  // No message begins with the words of two commands.
  lemma OnlyOneWord(message: string, k: Kind, l: Kind)
    requires !k.ChatText? && !l.ChatText?
    requires BetCommandParser.StartsWith(message, WordOf(k)) && BetCommandParser.StartsWith(message, WordOf(l))
    ensures k == l
  {
    hide WordOf, Begins;
    WordsBegin(k);
    WordsBegin(l);
    Extends(message, k);
    Extends(message, l);
    SameWord(message, k, l);
  }

  lemma Extends(message: string, kind: Kind)
    requires Begins(WordOf(kind), kind) && BetCommandParser.StartsWith(message, WordOf(kind))
    ensures Begins(message, kind)
  {
    hide WordOf, Letter;
    var w := WordOf(kind);
    assert message[..|w|][1] == message[1] && message[..|w|][2] == message[2];
  }

  // A command that is not chat is recognised, with any payload it may carry.
  lemma CommandRoundTrip(c: ClientCommand)
    requires !c.kind.ChatText? && (IsFixed(c.kind) ==> c.payload == "")
    ensures Parse(Render(c)) == c
  {
    hide WordOf;
    var m, w := Render(c), WordOf(c.kind);
    assert m[..|w|] == w && m[|w|..] == c.payload;
    assert w + "" == w;
    forall k: Kind | !k.ChatText? && BetCommandParser.StartsWith(m, WordOf(k)) ensures k == c.kind {
      OnlyOneWord(m, k, c.kind);
    }
    assert forall k: Kind :: m == WordOf(k) ==> m[..|m|] == m;
  }

  // The text a client sends for a bet.
  function BetMessage(c: Command): string {
    GAME_CLIENT_EVENT + (BETTING + BetCommandParser.Render(c))
  }

  // The bets as they are on the wire.
  lemma BetIsText(c: Command)
    ensures BetMessage(c) ==
      match c.kind
      case Front => "/Game_Client_Event  Betting Front " + BetCommandParser.Print(c.count)
      case Both => "/Game_Client_Event  Betting Both " + BetCommandParser.Print(c.count)
      case Back => "/Game_Client_Event  Betting Back " + BetCommandParser.Print(c.count)
      case Die => "/Game_Client_Event  Betting Die"
      case Special => "/Game_Client_Event  Betting SPECIAL "
      case Unset => "/Game_Client_Event  Betting "
  {
    hide BetCommandParser.Print;
  }

  // The words of the other requests, and what follows them.
  lemma RequestsAreRead(payload: string)
    ensures Parse("/Get_Chatting_Room") == ClientCommand(GetRooms, "")
    ensures Parse("/Exit_Room") == ClientCommand(ExitRoom, "")
    ensures Parse("/Login") == ClientCommand(Login, "")
    ensures Parse("/User_Update") == ClientCommand(UserUpdate, "")
    ensures Parse("/Close_Socket") == ClientCommand(CloseSocket, "")
    ensures Parse("/Create_Chatting_Room " + payload) == ClientCommand(CreateRoom, payload)
    ensures Parse("/Join_Chatting_Room " + payload) == ClientCommand(JoinRoom, payload)
    ensures Parse("/Room_Event " + payload) == ClientCommand(RoomEvent, payload)
    ensures Parse("/Game_Client_Event " + payload) == ClientCommand(GameEvent, payload)
  {
    hide Parse;
    forall kind: Kind | IsFixed(kind) ensures Parse(WordOf(kind)) == ClientCommand(kind, "") {
      CommandRoundTrip(ClientCommand(kind, ""));
      assert WordOf(kind) + "" == WordOf(kind);
    }
    forall kind: Kind | !IsFixed(kind) && !kind.ChatText?
      ensures Parse(WordOf(kind) + payload) == ClientCommand(kind, payload)
    {
      CommandRoundTrip(ClientCommand(kind, payload));
    }
  }

  // Client classification, prefix removal and bet parser together give back the command.
  lemma BetRoundTrip(c: Command)
    requires BetCommandParser.Sendable(c)
    ensures var game := Parse(BetMessage(c));
      && game.kind.GameEvent?
      && BetCommandParser.StartsWith(game.payload, BETTING)
      && BetCommandParser.Parse(game.payload[|BETTING|..]) == Some(c)
  {
    hide BetCommandParser.Parse, BetCommandParser.Render;
    var bet := BETTING + BetCommandParser.Render(c);
    CommandRoundTrip(ClientCommand(GameEvent, bet));
    assert bet[..|BETTING|] == BETTING && bet[|BETTING|..] == BetCommandParser.Render(c);
    BetCommandParser.CommandRoundTrip(c);
  }
}
