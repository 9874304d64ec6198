/** The values every part of the harness exchanges: messages, their admissions, and the
    envelopes of the append-only event stream (`turn_events`) that all of them write. */
module Protocol {

  datatype Option<+T> = None | Some(value: T)

  /** A freshly minted uuid4. Freshness is modelled by a counter, so two mints never collide. */
  type Uuid = nat

  /** The id a model provider mints for one tool call; only its equality matters here. */
  type ToolId = nat

  /** What a handler declares about a message arriving while a turn is open. */
  datatype MidTurn = ENQUEUE | REJECT | ACCEPT

  /** What an admitted message actually did to the agent's turn. */
  datatype Disposition = OPENED | JOINED | QUEUED

  datatype CloseReason = REQUESTED | IDLE_TIMEOUT_EXPIRED

  datatype Verdict = APPROVE | DENY | ESCALATE

  datatype CallbackResolution = Ok | Failed | Timeout

  datatype Message = Message(kind: string, payload: string)

  datatype Admission = Admission(message: Message, turnId: Uuid, turnNumber: nat, messageId: Uuid)

  datatype Reply = Reply(
    turnNumber: nat,
    turnId: Uuid,
    messageId: Uuid,
    disposition: Disposition,
    acceptedOffset: nat)

  /** One queued piece of steering: its own id, and the message whose handler queued it. */
  datatype SteeringMessage = SteeringMessage(steeringId: Uuid, messageId: Uuid, text: string)

  datatype Event =
    // The turn protocol.
    | MessageAccepted(handler: string, payload: string, disposition: Disposition)
    | TurnStarted
    | TurnEnded
    | MessageHandlerStart
    | MessageHandlerEnd(output: string)
    | MessageHandlerError(message: string)
    | AgentClosed(reason: CloseReason)
    // Steering.
    | SteeringEnqueued(steeringId: Uuid, text: string)
    | SteeringClaimed(steeringIds: seq<Uuid>)
    | SteeringDropped(steeringIds: seq<Uuid>)
    // Tool approvals and auto mode.
    | ToolApprovalRequested(toolId: ToolId, toolName: string)
    | ToolApprovalResolved(toolId: ToolId, toolName: string, approved: bool, why: Option<string>, remember: bool)
    | EvaluationStarted(toolId: ToolId, evaluationId: Uuid)
    | EvaluationEnded(toolId: ToolId, evaluationId: Uuid, verdict: Verdict)
    | EvaluationSuperseded(toolId: ToolId, evaluationId: Uuid, reached: Option<Verdict>)
    | EvaluationError(toolId: ToolId, evaluationId: Uuid)
    // Callback tools.
    | CallbackRequested(toolId: ToolId, toolName: string)
    | CallbackResolved(toolId: ToolId, toolName: string, outcome: CallbackResolution, error: Option<string>)
    // Everything a model call or a tool reports while it runs.
    | ReplyDelta(text: string)
    | ThoughtSummary(text: string)
    | ModelInteractionEnded(model: string, usage: Option<nat>)
    | TextAnnotation(citations: seq<string>)
    | ToolStart(toolId: ToolId, toolName: string)
    | ToolEnd(toolId: ToolId, toolName: string, toolOutput: string)
    | ToolError(toolId: ToolId, toolName: string, message: string)
    | Other(kind: string)

  /** `turnId` is `None` for the empty string the harness stamps outside any turn. */
  datatype Envelope = Envelope(turnId: Option<Uuid>, turnNumber: nat, messageId: Option<Uuid>, event: Event)

  /** The events only the turn protocol publishes. */
  predicate IsTurnEvent(e: Event) {
    e.MessageAccepted? || e.TurnStarted? || e.TurnEnded? || e.MessageHandlerStart?
    || e.MessageHandlerEnd? || e.MessageHandlerError? || e.AgentClosed?
  }

  predicate IsSteeringEvent(e: Event) {
    e.SteeringEnqueued? || e.SteeringClaimed? || e.SteeringDropped?
  }

  predicate IsApprovalEvent(e: Event) {
    e.ToolApprovalRequested? || e.ToolApprovalResolved? || e.EvaluationStarted? || e.EvaluationEnded?
    || e.EvaluationSuperseded? || e.EvaluationError?
  }

  predicate IsCallbackEvent(e: Event) {
    e.CallbackRequested? || e.CallbackResolved?
  }

  /** A message's own terminal: exactly one of these closes its dispatch. */
  predicate IsTerminal(e: Event) {
    e.MessageHandlerEnd? || e.MessageHandlerError?
  }
}
