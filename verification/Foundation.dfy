/** Shared vocabulary: option values, sockets, bets, results and the messages the server sends. */
module Foundation {

  datatype Option<+T> = None | Some(value: T)

  // A socket is an identifier; live sockets are pairwise different and never INVALID_SOCKET.
  datatype Socket = INVALID_SOCKET | Handle(id: nat)

  // A user's number; none before login.
  datatype UserNumber = NoNumber | Number(n: nat)

  const DEFAULT_CHIPS := 30
  const TOTAL_CHIPS := 2 * DEFAULT_CHIPS

  datatype BetType = Front | Both | Back | Die | Special | Unset
  datatype BetResult = Call | Raise | BetImpossible
  datatype RoundResult = BothWin | BothLose | Win | Lose | Draw | RoundImpossible
  datatype MatchResult = FinalWin | FinalLose | Progress | MatchImpossible
  datatype TargetType = ToSelf | ToOthers | ToAll

  datatype Card = Card(front: int, back: int)

  // The two cards handed out for one round: the caller's and the opponent's.
  datatype Deal = Deal(mine: Card, theirs: Card)

  // A parsed betting command.
  datatype Command = Command(kind: BetType, count: int)

  datatype Whose = Mine | Others | Dealers
  datatype Face = FrontFace | BackFace
  datatype Result = SaysWin | SaysLose | SaysDraw | SaysBothWin | SaysBothLose | SaysDie

  // Messages to one client, one constructor per wire message.
  datatype Msg =
    | ChipUpdate(whose: Whose, amount: int)
    | MyCard(face: Face, value: int)
    | OtherFrontCard(value: int)
    | BetUpdate(whose: Whose, face: Face, amount: int)
    | BothMark(whose: Whose)
    | BettingRefused
    | Battle
    | PrintBack(value: int)
    | Wait
    | RoundMsg(result: Result)
    | FinalMsg(won: bool)
    | BasicBetting
    | GameInit
    | Turn(mine: bool)
    | StartDone
    | StartReady
    | GameAborted
    | ExitComplete
    | Exited(id: string)
    | UpdateId(id: string)
    | UpdateReady(ready: bool)
    | Chat(text: string)

  function Max(a: int, b: int): int { if a > b then a else b }

  function Min(a: int, b: int): int { if b < a then b else a }
}
