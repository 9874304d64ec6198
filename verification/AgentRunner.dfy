/** The runner itself: the two objects whose fields the turn protocol updates in place. Each
    method is one step between two awaits and is proved to be the matching step of
    TurnMachine, so everything proved about runs holds of these objects. */
module AgentRunner {
  import opened Protocol
  import opened TurnGrammar
  import opened TurnMachine
  import opened TurnSafety
  import E = TurnEffects

  /** What a call that may raise gives back. */
  datatype Called<+T> = Value(value: T) | RuntimeError

  /** How a handler ended: it returned a reply, `None` when that does not serialize, or raised. */
  datatype Dispatched = GaveReply(output: Option<string>) | Raised(message: string)

  class WorkflowStatus {
    var currentTurn: nat
    var currentTurnId: Option<Uuid>
    var turnParticipants: nat
    var pendingTurns: seq<Admission>
    var closeReason: Option<CloseReason>

    constructor ()
      ensures currentTurn == 0 && currentTurnId == None && turnParticipants == 0
      ensures pendingTurns == [] && closeReason == None
    {
      currentTurn, currentTurnId, turnParticipants, pendingTurns, closeReason := 0, None, 0, [], None;
    }

    predicate TurnActive()
      reads this
    {
      turnParticipants > 0
    }

    predicate HasPendingWork()
      reads this
    {
      TurnActive() || |pendingTurns| > 0
    }

    predicate CanOpenTurn()
      reads this
    {
      |pendingTurns| > 0 && !TurnActive()
    }

    function ReserveTurnNumber(): (n: nat)
      reads this
      ensures n == currentTurn + |pendingTurns| + 1
    {
      currentTurn + |pendingTurns| + 1
    }

    method EnqueueMessage(admission: Admission)
      modifies this`pendingTurns
      ensures pendingTurns == old(pendingTurns) + [admission]
    {
      pendingTurns := pendingTurns + [admission];
    }

    method OpenNextTurn() returns (admitted: Admission)
      requires CanOpenTurn()
      modifies this
      ensures [admitted] + pendingTurns == old(pendingTurns)
      ensures currentTurn == old(currentTurn) + 1 && currentTurnId == Some(admitted.turnId)
      ensures turnParticipants == 1 && closeReason == old(closeReason)
    {
      admitted := pendingTurns[0];
      pendingTurns := pendingTurns[1..];
      currentTurn := currentTurn + 1;
      currentTurnId := Some(admitted.turnId);
      turnParticipants := 1;
    }

    /** Raises when no turn is open. */
    method JoinTurn() returns (joined: Called<(Uuid, nat)>)
      modifies this`turnParticipants
      ensures joined.RuntimeError? <==> currentTurnId.None?
      ensures joined.Value? ==> currentTurnId == Some(joined.value.0) && joined.value.1 == currentTurn
      ensures turnParticipants == old(turnParticipants) + if currentTurnId.Some? then 1 else 0
    {
      if currentTurnId.None? {
        return RuntimeError;
      }
      turnParticipants := turnParticipants + 1;
      return Value((currentTurnId.value, currentTurn));
    }

    method LeaveTurn() returns (closedTurn: bool)
      requires turnParticipants > 0
      modifies this`turnParticipants, this`currentTurnId
      ensures turnParticipants == old(turnParticipants) - 1
      ensures closedTurn <==> turnParticipants == 0
      ensures currentTurnId == if closedTurn then None else old(currentTurnId)
    {
      turnParticipants := turnParticipants - 1;
      if turnParticipants > 0 {
        return false;
      }
      turnParticipants := 0;
      currentTurnId := None;
      return true;
    }
  }

  class AgentWorkflowRunner {
    const config: Config
    const status: WorkflowStatus
    var closed: bool
    var joining: seq<Admission>
    var participantTasks: map<Uuid, Participant>
    var steering: seq<SteeringMessage>
    var events: seq<Envelope>
    var nextUuid: nat
    var loop: LoopPc
    ghost var lost: set<Uuid>
    ghost var abandoned: bool

    ghost function View(): State
      reads this, status
    {
      State(status.currentTurn, status.currentTurnId, status.turnParticipants, status.pendingTurns,
            status.closeReason, closed, joining, participantTasks, steering, nextUuid, loop, events,
            lost, abandoned)
    }

    ghost predicate Valid()
      reads this, status
    {
      Inv(View())
    }

    constructor (config: Config)
      ensures Valid() && View() == INIT && this.config == config && fresh(status)
    {
      this.config := config;
      status := new WorkflowStatus();
      closed, joining, participantTasks, steering, events := false, [], map[], [], [];
      nextUuid, loop, lost, abandoned := 0, NotStarted, {}, false;
    }

    // -- Admission ------------------------------------------------------------

    method Pub(turnId: Option<Uuid>, turnNumber: nat, messageId: Option<Uuid>, event: Event)
      modifies this`events
      ensures events == old(events) + [Envelope(turnId, turnNumber, messageId, event)]
    {
      events := events + [Envelope(turnId, turnNumber, messageId, event)];
    }

    method MintUuid() returns (id: Uuid)
      modifies this`nextUuid
      ensures id == old(nextUuid) && nextUuid == id + 1
    {
      id := nextUuid;
      nextUuid := nextUuid + 1;
    }

    method ValidateSendAgentMessage(message: Message) returns (error: Option<Rejection>)
      ensures error == Validate(config, View(), message)
    {
      if status.closeReason.Some? {
        return Some(AgentIsClosed);
      }
      if message.kind !in config.handlers {
        return Some(UnknownFunction);
      }
      var handler := config.handlers[message.kind];
      if !handler.accepts(message.payload) {
        return Some(MalformedMessage);
      }
      if handler.midTurn == REJECT && status.HasPendingWork() {
        return Some(MidTurnRejected);
      }
      return None;
    }

    method HandleSendAgentMessage(message: Message) returns (answer: Admitted)
      requires Valid()
      modifies this, status
      ensures Valid() && (View(), answer) == Admit(config, old(View()), message)
    {
      ghost var s := View();
      var error := ValidateSendAgentMessage(message);
      if error.Some? {
        return Rejected(error.value);
      }
      var reply := AdmitNow(message);
      answer := Accepted(reply);
      AdmitKeeps(config, s, message);
    }

    /** The synchronous prologue of an admission that passed validation. */
    method AdmitNow(message: Message) returns (reply: Reply)
      requires message.kind in config.handlers && (status.TurnActive() ==> status.currentTurnId.Some?)
      modifies this, status
      ensures View() == AdmitValid(config, old(View()), message) && reply == ReplyTo(config, old(View()), message)
    {
      var acceptedOffset := |events|;
      var messageId := MintUuid();
      var turnId, turnNumber, disposition;
      if config.handlers[message.kind].midTurn == ACCEPT && status.TurnActive() {
        var joined := status.JoinTurn();
        turnId, turnNumber := joined.value.0, joined.value.1;
        disposition := JOINED;
        joining := joining + [Admission(message, turnId, turnNumber, messageId)];
      } else {
        turnId := MintUuid();
        turnNumber := status.ReserveTurnNumber();
        disposition := if status.HasPendingWork() then QUEUED else OPENED;
        status.EnqueueMessage(Admission(message, turnId, turnNumber, messageId));
      }
      Pub(Some(turnId), turnNumber, Some(messageId), MessageAccepted(message.kind, message.payload, disposition));
      reply := Reply(turnNumber, turnId, messageId, disposition, acceptedOffset);
    }

    // -- Closing and the turn loop ------------------------------------------------

    method CloseAgent(reason: CloseReason)
      modifies this, status
      ensures View() == Close(old(View()), reason)
    {
      if status.closeReason.None? {
        status.closeReason := Some(reason);
      }
      closed := true;
    }

    method HandleClose()
      requires Valid()
      modifies this, status
      ensures Valid() && View() == Close(old(View()), REQUESTED)
    {
      ghost var s := View();
      CloseAgent(REQUESTED);
      StepKeeps(config, s, CloseSignal);
    }

    predicate Idle()
      reads this, status
    {
      !status.HasPendingWork() && joining == []
    }

    /** The loop test and the wait it goes on to. */
    method EnterWait()
      modifies this`loop
      ensures View() == EnterLoop(config, old(View()))
    {
      if closed {
        loop := Draining;
      } else if !config.closeAfterIdle {
        loop := Parked(ForWork);
      } else if !Idle() {
        loop := Parked(ForWorkOrIdle);
      } else {
        loop := Parked(ForWorkOrTimer);
      }
    }

    method Run()
      requires Valid() && loop.NotStarted?
      modifies this, status
      ensures Valid() && View() == EnterLoop(config, old(View()))
    {
      ghost var s := View();
      EnterWait();
      EnterKeeps(config, s);
    }

    method SpawnParticipant(admitted: Admission, joined: bool)
      modifies this`participantTasks
      ensures participantTasks == old(participantTasks)[admitted.messageId := Participant(admitted, joined, false)]
    {
      participantTasks := participantTasks[admitted.messageId := Participant(admitted, joined, false)];
    }

    method SpawnWaitingJoins()
      modifies this`joining, this`participantTasks
      ensures View() == SpawnJoins(old(View()))
    {
      while |joining| > 0
        invariant SpawnAll(participantTasks, joining) == old(SpawnAll(participantTasks, joining))
        decreases |joining|
      {
        var admitted := joining[0];
        joining := joining[1..];
        SpawnParticipant(admitted, true);
      }
    }

    method OpenTurn()
      requires status.CanOpenTurn()
      modifies this, status
      ensures View() == TurnMachine.OpenNextTurn(old(View()))
    {
      var admitted := status.OpenNextTurn();
      assert admitted == old(status.pendingTurns)[0];
      assert status.pendingTurns == old(status.pendingTurns)[1..];
      Pub(Some(admitted.turnId), admitted.turnNumber, None, TurnStarted);
      SpawnParticipant(admitted, false);
    }

    method RunBody()
      modifies this, status
      ensures View() == LoopBody(config, old(View()))
    {
      SpawnWaitingJoins();
      if status.CanOpenTurn() {
        OpenTurn();
      }
      EnterWait();
    }

    /** The wait's condition holds: the event loop schedules the coroutine to go on. */
    method FireWaitCondition()
      requires Valid() && CanFire(View())
      modifies this`loop
      ensures Valid() && View() == Fire(old(View()))
    {
      ghost var s := View();
      loop := if loop.Draining? then Drained else Woken;
      StepKeeps(config, s, FireWait);
    }

    /** The loop's coroutine runs from the wait it was resumed in to the next one. */
    method ResumeRun()
      requires Valid() && (loop.Woken? || loop.TimedOut? || loop.Drained?)
      modifies this, status
      ensures Valid() && View() == Resume(config, old(View()))
    {
      ghost var s := View();
      if loop.Drained? {
        if status.closeReason.Some? {
          Pub(None, 0, None, AgentClosed(status.closeReason.value));
        }
        loop := Returned;
      } else {
        if loop.TimedOut? && Idle() {
          CloseAgent(IDLE_TIMEOUT_EXPIRED);
        }
        if closed {
          loop := Draining;
        } else {
          RunBody();
        }
      }
      ResumeKeeps(config, s);
    }

    // -- Participants ---------------------------------------------------------------

    method BeginParticipant(m: Uuid)
      requires Valid() && m in participantTasks && !participantTasks[m].started
      modifies this
      ensures Valid() && View() == StartParticipant(old(View()), m)
    {
      ghost var s := View();
      var p := participantTasks[m];
      participantTasks := participantTasks[m := p.(started := true)];
      Pub(Some(p.admission.turnId), p.admission.turnNumber, Some(m), MessageHandlerStart);
      StepKeeps(config, s, Start(m));
    }

    method PublishTerminal(m: Uuid, outcome: Outcome)
      requires m in participantTasks
      modifies this`participantTasks, this`events
      ensures View() == EndTask(old(View()), m, outcome)
    {
      var admitted := participantTasks[m].admission;
      match outcome {
        case Replied(output) =>
          Pub(Some(admitted.turnId), admitted.turnNumber, Some(m), MessageHandlerEnd(output));
        case Failure(message) =>
          Pub(Some(admitted.turnId), admitted.turnNumber, Some(m), MessageHandlerError(message));
      }
      participantTasks := participantTasks - {m};
    }

    method DropRefcount() returns (last: bool)
      requires status.turnParticipants > 0
      modifies status
      ensures View() == TurnMachine.LeaveTurn(old(View())) && (last <==> !View().TurnActive())
    {
      last := status.LeaveTurn();
    }

    /** The handler is done. A reply is turned into JSON only after the exceptions of the handler
        have been dealt with: when that raises, the coroutine ends at once, having published
        nothing and left nothing. Otherwise the first event says what the handler did. */
    method CompleteParticipant(m: Uuid, done: Dispatched)
      requires Valid() && m in participantTasks && participantTasks[m].started
      modifies this, status
      ensures Valid()
      ensures View() == match done
                        case GaveReply(None) => LoseReply(old(View()), m)
                        case GaveReply(Some(output)) => FinishParticipant(old(View()), m, Replied(output))
                        case Raised(message) => FinishParticipant(old(View()), m, Failure(message))
      ensures match done
              case GaveReply(None) => events == old(events)
              case GaveReply(Some(output)) => Told(old(events), m, MessageHandlerEnd(output))
              case Raised(message) => Told(old(events), m, MessageHandlerError(message))
    {
      match done
      case GaveReply(None) => DropLost(m);
      case GaveReply(Some(output)) => LeaveWith(m, Replied(output));
      case Raised(message) => LeaveWith(m, Failure(message));
    }

    /** After `before` the stream goes on with this event of message `m`. */
    ghost predicate Told(before: seq<Envelope>, m: Uuid, e: Event)
      reads this`events
    {
      before < events && events[|before|].messageId == Some(m) && events[|before|].event == e
    }

    /** The task of a participant that has not begun is cancelled: its coroutine never runs, and
        the only thing that does is the callback that lets go of the task. */
    method DiscardParticipant(m: Uuid)
      requires Valid() && m in participantTasks && !participantTasks[m].started
      modifies this
      ensures Valid() && View() == LoseReply(old(View()), m)
    {
      DropLost(m);
    }

    method DropLost(m: Uuid)
      requires Valid() && m in participantTasks
      modifies this
      ensures Valid() && View() == LoseReply(old(View()), m)
    {
      LoseKeeps(View(), m);
      participantTasks := participantTasks - {m};
      lost := lost + {m};
    }

    method LeaveWith(m: Uuid, outcome: Outcome)
      requires Valid() && m in participantTasks && participantTasks[m].started
      modifies this, status
      ensures Valid() && View() == FinishParticipant(old(View()), m, outcome)
      ensures Told(old(events), m, match outcome case Replied(output) => MessageHandlerEnd(output)
                                                 case Failure(message) => MessageHandlerError(message))
    {
      ghost var s := View();
      E.FinishSays(config, s, m, outcome);
      E.FinishSpoke(s, m, outcome);
      EndWith(m, outcome);
      assert events == FinishParticipant(s, m, outcome).log;
    }

    method EndWith(m: Uuid, outcome: Outcome)
      requires Valid() && m in participantTasks && participantTasks[m].started
      modifies this, status
      ensures Valid() && View() == FinishParticipant(old(View()), m, outcome)
    {
      ghost var s := View();
      FinishKeeps(s, m, outcome);
      var admitted := participantTasks[m].admission;
      RemoveTask(participantTasks, m);
      PublishTerminal(m, outcome);
      var last := DropRefcount();
      if last {
        PublishTurnEnd(admitted.turnId, admitted.turnNumber);
      }
      assert View() == FinishParticipant(s, m, outcome);
    }

    method PublishTurnEnd(turnId: Uuid, turnNumber: nat)
      modifies this`steering, this`events
      ensures View() == CloseBracket(old(View()), turnId, turnNumber)
    {
      if |steering| > 0 {
        var dropped := SteeringIds(steering);
        steering := [];
        Pub(Some(turnId), turnNumber, None, SteeringDropped(dropped));
      }
      Pub(Some(turnId), turnNumber, None, TurnEnded);
    }

    /** Cancellation or teardown of a parked participant. */
    method TearDownParticipant(m: Uuid)
      requires Valid() && m in participantTasks && participantTasks[m].started
      modifies this, status
      ensures Valid() && View() == AbandonParticipant(old(View()), m)
    {
      ghost var s := View();
      RemoveTask(participantTasks, m);
      participantTasks := participantTasks - {m};
      abandoned := true;
      var _ := status.LeaveTurn();
      AbandonKeeps(s, m);
    }

    // -- Steering ----------------------------------------------------------------------

    /** `ambient` is the message whose context the caller runs in, if any. */
    method SteerWith(ambient: Option<Uuid>, text: string) returns (steeringId: Called<Uuid>)
      requires Valid()
      modifies this
      ensures Valid()
      ensures ambient.None? ==> View() == old(View())
      ensures ambient.Some? ==> View() == Steer(old(View()), ambient.value, text)
      ensures steeringId == if ambient.Some? && status.currentTurnId.Some? then Value(old(nextUuid)) else RuntimeError
    {
      ghost var s := View();
      if ambient.None? {
        return RuntimeError;
      }
      var id := MintUuid();
      steering := steering + [SteeringMessage(id, ambient.value, text)];
      if status.currentTurnId.None? {
        steeringId := RuntimeError;
      } else {
        Pub(status.currentTurnId, status.currentTurn, ambient, SteeringEnqueued(id, text));
        steeringId := Value(id);
      }
      SameCounts(s, View());
    }

    /** Takes all queued steering, oldest first, unless a tool call is in flight here. */
    method ClaimAll(inTool: bool, ambient: Option<Uuid>) returns (claimed: Called<Option<seq<SteeringMessage>>>)
      requires Valid()
      modifies this
      ensures Valid() && View() == ClaimSteering(old(View()), inTool, ambient)
      ensures claimed == if inTool || old(steering) == [] then Value(None)
                         else if status.currentTurnId.None? then RuntimeError
                         else Value(Some(old(steering)))
    {
      ghost var s := View();
      if inTool || |steering| == 0 {
        return Value(None);
      }
      var batch := steering;
      steering := [];
      if status.currentTurnId.None? {
        claimed := RuntimeError;
      } else {
        Pub(status.currentTurnId, status.currentTurn, ambient, SteeringClaimed(SteeringIds(batch)));
        claimed := Value(Some(batch));
      }
      SameCounts(s, View());
    }
  }
}
