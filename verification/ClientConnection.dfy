/** TwofacedPoker/Network/ClientConnection.cpp: a bounded queue of outgoing messages with one sender thread, any
    number of threads that enqueue, and any number that stop the connection. */
module ClientConnection {
  import opened Foundation
  import Packet

  const MAX_QUEUE_SIZE := 256

  type Message = seq<Packet.byte>

  // ---- the queueMutex sections ---------------------------------------------------------------

  datatype Queue = Queue(waiting: seq<Message>, stopping: bool, stopped: bool)

  datatype Push = Pushed | Refused | Overflowed

  datatype Take = Taken(message: Message) | MustEnd | MustWait

  function PushTo(q: Queue, message: Message): (Queue, Push) {
    if q.stopping then (q, Refused)
    else if |q.waiting| >= MAX_QUEUE_SIZE then (q.(stopping := true), Overflowed)
    else (q.(waiting := q.waiting + [message]), Pushed)
  }

  function TakeFrom(q: Queue): (Queue, Take) {
    if q.stopping then (q, MustEnd)
    else if q.waiting == [] then (q, MustWait)
    else (q.(waiting := q.waiting[1..]), Taken(q.waiting[0]))
  }

  // Stop begins; only the first caller goes on.
  function Stopping(q: Queue): (Queue, bool) {
    if q.stopped then (q, false) else (q.(stopping := true, stopped := true), true)
  }

  class ClientConnection {
    var sendQueue: seq<Message>
    var stopping: bool
    var stopped: bool

    function Sections(): Queue
      reads this
    {
      Queue(sendQueue, stopping, stopped)
    }

    constructor ()
      ensures Sections() == Queue([], false, false)
    {
      sendQueue, stopping, stopped := [], false, false;
    }

    // The part of Enqueue under the lock, for a message of a valid size.
    method EnqueueLocked(message: Message) returns (result: Push)
      modifies this
      ensures (Sections(), result) == PushTo(old(Sections()), message)
    {
      if stopping {
        return Refused;
      }
      if |sendQueue| >= MAX_QUEUE_SIZE {
        stopping := true;
        return Overflowed;
      }
      sendQueue := sendQueue + [message];
      return Pushed;
    }

    // The sender's turn under the lock; MustWait is the wait on the condition variable.
    method TakeLocked() returns (result: Take)
      modifies this
      ensures (Sections(), result) == TakeFrom(old(Sections()))
    {
      if !stopping && sendQueue == [] {
        return MustWait;
      }
      if stopping {
        return MustEnd;
      }
      var message := sendQueue[0];
      sendQueue := sendQueue[1..];
      return Taken(message);
    }

    method FailLocked()
      modifies this
      ensures Sections() == old(Sections()).(stopping := true)
    {
      stopping := true;
    }

    method StopLocked() returns (first: bool)
      modifies this
      ensures (Sections(), first) == Stopping(old(Sections()))
    {
      if stopped {
        return false;
      }
      stopping := true;
      stopped := true;
      return true;
    }
  }

  // ---- the threads ---------------------------------------------------------------------------

  // Where the sender thread is, with the message it has taken from the queue and not fully sent.
  datatype Sender = Idle | Sending(message: Message) | Failed(message: Message) | Hanging(message: Message)
                  | Ended(rest: seq<Message>)

  // Where the thread is that came through the guard of Stop.
  datatype Stopper = Nobody | Shutting | Joining | Closing | Finished

  // accepted and sent record what Enqueue said yes to and what went out completely; closings counts closesocket;
  // overflowing are the threads that found the queue full and have still to shut the socket down.
  datatype State = State(
    q: Queue, sender: Sender, stopper: Stopper, overflowing: nat, shut: bool, closings: nat,
    accepted: seq<Message>, sent: seq<Message>)

  datatype Action =
    | Enqueue(message: Message)
    | ShutAfterOverflow
    | SenderTakes
    | SenderSends(ok: bool)
    | SenderFails
    | SenderShuts
    | CallStop
    | StopperShuts
    | StopperJoins
    | StopperCloses

  const START := State(Queue([], false, false), Idle, Nobody, 0, false, 0, [], [])

  function OnEnqueue(s: State, message: Message): State {
    if !Packet.Sendable(message) then s
    else
      var (q, result) := PushTo(s.q, message);
      match result
      case Pushed => s.(q := q, accepted := s.accepted + [message])
      case Refused => s
      case Overflowed => s.(q := q, overflowing := s.overflowing + 1)
  }

  function OnTake(s: State): State {
    if !s.sender.Idle? then s
    else
      var (q, result) := TakeFrom(s.q);
      match result
      case Taken(m) => s.(q := q, sender := Sending(m))
      case MustEnd => s.(sender := Ended([]))
      case MustWait => s
  }

  // An action whose thread is not at that point does nothing.
  function Next(s: State, a: Action): State {
    match a
    case Enqueue(message) => OnEnqueue(s, message)
    case ShutAfterOverflow => if s.overflowing == 0 then s else s.(overflowing := s.overflowing - 1, shut := true)
    case SenderTakes => OnTake(s)
    case SenderSends(ok) =>
      if !s.sender.Sending? then s
      else if ok then s.(sender := Idle, sent := s.sent + [s.sender.message])
      else s.(sender := Failed(s.sender.message))
    case SenderFails =>
      if !s.sender.Failed? then s else s.(q := s.q.(stopping := true), sender := Hanging(s.sender.message))
    case SenderShuts => if !s.sender.Hanging? then s else s.(shut := true, sender := Ended([s.sender.message]))
    case CallStop =>
      var (q, first) := Stopping(s.q);
      if first then s.(q := q, stopper := Shutting) else s
    case StopperShuts => if !s.stopper.Shutting? then s else s.(shut := true, stopper := Joining)
    case StopperJoins => if !(s.stopper.Joining? && s.sender.Ended?) then s else s.(stopper := Closing)
    case StopperCloses => if !s.stopper.Closing? then s else s.(closings := s.closings + 1, stopper := Finished)
  }

  function Run(s: State, actions: seq<Action>): State
    decreases |actions|
  {
    if actions == [] then s else Run(Next(s, actions[0]), actions[1..])
  }

  // ---- what always holds ---------------------------------------------------------------------

  function InFlight(p: Sender): seq<Message> {
    match p
    case Idle => []
    case Sending(m) => [m]
    case Failed(m) => [m]
    case Hanging(m) => [m]
    case Ended(rest) => rest
  }

  ghost predicate Safe(s: State) {
    && s.accepted == s.sent + InFlight(s.sender) + s.q.waiting
    && |InFlight(s.sender)| <= 1
    && |s.q.waiting| <= MAX_QUEUE_SIZE
    && (forall m :: m in s.accepted ==> Packet.Sendable(m))
    && (s.q.stopped ==> s.q.stopping)
    && (s.sender.Hanging? || s.sender.Ended? || s.overflowing > 0 ==> s.q.stopping)
    && (s.stopper.Nobody? <==> !s.q.stopped)
    && (s.stopper.Closing? || s.stopper.Finished? ==> s.sender.Ended?)
    && (s.shut ==> s.q.stopping)
    && (s.stopper.Joining? || s.stopper.Closing? || s.stopper.Finished? ==> s.shut)
    && s.closings == (if s.stopper.Finished? then 1 else 0)
  }

  lemma ActionIsSafe(s: State, a: Action)
    requires Safe(s)
    ensures Safe(Next(s, a))
  {
    var s' := Next(s, a);
    match a
    case Enqueue(m) =>
      if s'.accepted != s.accepted {
        assert s'.accepted == s.sent + InFlight(s.sender) + (s.q.waiting + [m]);
      }
    case SenderTakes =>
      if s'.sender.Sending? && s.sender.Idle? {
        assert s.q.waiting == [s.q.waiting[0]] + s.q.waiting[1..];
        assert s.sent + [] + ([s.q.waiting[0]] + s.q.waiting[1..]) == s.sent + [s.q.waiting[0]] + s.q.waiting[1..];
      }
    case SenderSends(ok) =>
      if s.sender.Sending? && ok {
        assert s'.sent + [] + s.q.waiting == s.sent + [s.sender.message] + s.q.waiting;
      }
    case _ =>
  }

  // In every interleaving: what was accepted is what was sent, then the one message in flight, then the queue;
  // the queue is bounded, the socket is closed at most once, and never while the sender still uses it.
  lemma {:induction false} EveryRunIsSafe(s: State, actions: seq<Action>)
    requires Safe(s)
    ensures Safe(Run(s, actions))
    decreases |actions|
  {
    if actions != [] {
      ActionIsSafe(s, actions[0]);
      EveryRunIsSafe(Next(s, actions[0]), actions[1..]);
    }
  }

  lemma EveryHistory(actions: seq<Action>)
    ensures var s := Run(START, actions);
      && s.sent <= s.accepted
      && s.accepted == s.sent + InFlight(s.sender) + s.q.waiting
      && |s.q.waiting| <= MAX_QUEUE_SIZE && s.closings <= 1
      && (s.closings == 1 ==> s.sender.Ended? && s.shut)
  {
    EveryRunIsSafe(START, actions);
    var s := Run(START, actions);
    assert s.sent + InFlight(s.sender) + s.q.waiting == s.sent + (InFlight(s.sender) + s.q.waiting);
  }

  // Once stopping: nothing is accepted or taken from the queue any more, whatever the threads do. Only the
  // message in flight may still go out.
  lemma {:induction false} StoppingIsFinal(s: State, actions: seq<Action>)
    requires s.q.stopping
    ensures var s' := Run(s, actions);
      && s'.q.stopping && s'.accepted == s.accepted && s'.q.waiting == s.q.waiting
      && (s'.sender.Sending? ==> s'.sender == s.sender && s'.sent == s.sent)
      && (s'.sent == s.sent || (s.sender.Sending? && s'.sent == s.sent + [s.sender.message]))
    decreases |actions|
  {
    if actions != [] {
      StoppingIsFinal(Next(s, actions[0]), actions[1..]);
    }
  }

  // The sender sends what is waiting, first to last, one message at a time.
  function Rounds(n: nat): seq<Action> {
    if n == 0 then [] else [SenderTakes, SenderSends(true)] + Rounds(n - 1)
  }

  // As long as nobody stops the connection and no send fails, everything that was accepted goes out.
  lemma {:induction false} EverythingGoesOut(s: State)
    requires Safe(s) && !s.q.stopping && s.sender.Idle?
    ensures var s' := Run(s, Rounds(|s.q.waiting|));
      s'.sent == s.accepted && s'.accepted == s.accepted && s'.q.waiting == [] && s'.sender.Idle?
    decreases |s.q.waiting|
  {
    hide Safe;
    var es := Rounds(|s.q.waiting|);
    if s.q.waiting == [] {
      assert s.accepted == s.sent + [] + [] by { NothingWaits(s); }
    } else {
      var taken := Next(s, SenderTakes);
      var s1 := Next(taken, SenderSends(true));
      assert es[1..] == [SenderSends(true)] + Rounds(|s1.q.waiting|) && es[1..][1..] == Rounds(|s1.q.waiting|);
      assert Run(s, es) == Run(taken, es[1..]) == Run(s1, es[1..][1..]);
      ActionIsSafe(s, SenderTakes);
      ActionIsSafe(taken, SenderSends(true));
      EverythingGoesOut(s1);
    }
  }

  lemma NothingWaits(s: State)
    requires Safe(s) && s.q.waiting == [] && s.sender.Idle?
    ensures s.accepted == s.sent
  {
    assert s.sent + [] + [] == s.sent;
  }

  // Whoever calls Stop first begins it; later calls change nothing.
  lemma OnlyFirstStops(s: State)
    requires Safe(s)
    ensures var s' := Next(s, CallStop);
      if s.stopper.Nobody? then
        s' == s.(q := s.q.(stopping := true, stopped := true), stopper := Shutting)
      else s' == s
  {
  }

  // An enqueue is refused exactly for a size no packet can have, when stopping, or when the queue is full; and a
  // full queue stops the connection.
  lemma EnqueueRefusal(s: State, message: Message)
    requires Safe(s)
    ensures var s' := Next(s, Enqueue(message));
      && (s'.accepted == s.accepted <==>
            !Packet.Sendable(message) || s.q.stopping || |s.q.waiting| == MAX_QUEUE_SIZE)
      && (s'.accepted != s.accepted ==>
            s'.accepted == s.accepted + [message] && s'.q.waiting == s.q.waiting + [message])
      && (Packet.Sendable(message) && |s.q.waiting| == MAX_QUEUE_SIZE ==> s'.q.stopping)
  {
  }

  // ---- stopping gets through -----------------------------------------------------------------

  function Left(s: State): nat {
    (match s.sender
     case Idle => 1 case Sending(_) => 4 case Failed(_) => 3 case Hanging(_) => 2 case Ended(_) => 0)
    + match s.stopper
      case Nobody => 4 case Shutting => 3 case Joining => 2 case Closing => 1 case Finished => 0
  }

  // A step of the thread that Stop waits for.
  predicate IsDue(s: State, a: Action) {
    match s.sender
    case Idle => a.SenderTakes?
    case Sending(_) => a.SenderSends?
    case Failed(_) => a.SenderFails?
    case Hanging(_) => a.SenderShuts?
    case Ended(_) =>
      match s.stopper
      case Shutting => a.StopperShuts?
      case Joining => a.StopperJoins?
      case _ => a.StopperCloses?
  }

  // After Stop has begun no action adds work, every step that is due reduces it until the socket is closed, and
  // there always is such a step: Stop cannot block for ever.
  lemma StopMakesProgress(s: State, a: Action)
    requires Safe(s) && s.q.stopped
    ensures Left(Next(s, a)) <= Left(s) && Next(s, a).q.stopped
    ensures Left(s) > 0 && IsDue(s, a) ==> Left(Next(s, a)) < Left(s)
    ensures Left(s) == 0 <==> s.closings == 1
  {
  }

  function DueSteps(s: State, actions: seq<Action>): nat
    decreases |actions|
  {
    if actions == [] then 0
    else (if IsDue(s, actions[0]) then 1 else 0) + DueSteps(Next(s, actions[0]), actions[1..])
  }

  // In any schedule, whatever enqueuers and further callers of Stop do in between, the socket is closed as soon as
  // the threads that are due have taken Left(s) steps; that is at most 8.
  lemma {:induction false} StopCompletes(s: State, actions: seq<Action>)
    requires Safe(s) && s.q.stopped && DueSteps(s, actions) >= Left(s)
    ensures Run(s, actions).closings == 1 && Left(s) <= 8
    decreases |actions|
  {
    hide Next, Safe, IsDue;
    if actions != [] {
      StopMakesProgress(s, actions[0]);
      ActionIsSafe(s, actions[0]);
      var s' := Next(s, actions[0]);
      StopMakesProgress(s', actions[0]);
      StopCompletes(s', actions[1..]);
    } else {
      StopMakesProgress(s, CallStop);
    }
  }
}
