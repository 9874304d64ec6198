/** The agent turn protocol as a state machine. One step is the code between two awaits: an
    admission, a signal, one resumption of the run loop, or one resumption of a participant
    task. A wait whose condition became true is resumed later, so waking is two steps
    (`Fire`, then `Resume`) with anything in between, and the resumed code reads its guards
    again. A run is any sequence of steps; a step that is not enabled changes nothing. */
module TurnMachine {
  import opened Protocol
  import opened TurnGrammar

  datatype Handler = Handler(midTurn: MidTurn, accepts: string -> bool)

  /** `closeAfterIdle` says whether an idle timeout is configured. */
  datatype Config = Config(handlers: map<string, Handler>, closeAfterIdle: bool)

  /** A spawned participant task; `started` once its coroutine has begun to run. */
  datatype Participant = Participant(admission: Admission, joined: bool, started: bool)

  datatype WaitMode = ForWork | ForWorkOrIdle | ForWorkOrTimer

  /** Where the run loop's coroutine is. */
  datatype LoopPc =
    | NotStarted
    | Parked(mode: WaitMode)
    | Woken
    | TimedOut
    | Draining
    | Drained
    | Returned

  datatype State = State(
    currentTurn: nat,
    currentTurnId: Option<Uuid>,
    participants: nat,
    pending: seq<Admission>,
    closeReason: Option<CloseReason>,
    closed: bool,
    joining: seq<Admission>,
    tasks: map<Uuid, Participant>,
    steering: seq<SteeringMessage>,
    nextUuid: nat,
    loop: LoopPc,
    log: seq<Envelope>,
    // History: the messages whose participant was lost, its finished reply failing to serialize
    // or its task cancelled before it began; whether a participant was torn down.
    lost: set<Uuid>,
    abandoned: bool)
  {
    predicate TurnActive() { participants > 0 }

    predicate HasPendingWork() { TurnActive() || |pending| > 0 }

    predicate CanOpenTurn() { |pending| > 0 && !TurnActive() }

    predicate Idle() { !HasPendingWork() && joining == [] }

    predicate HasWork() { CanOpenTurn() || joining != [] || closed }
  }

  const INIT := State(0, None, 0, [], None, false, [], map[], [], 0, NotStarted, [], {}, false)

  // ---- Admission --------------------------------------------------------------

  datatype Rejection = AgentIsClosed | UnknownFunction | MalformedMessage | MidTurnRejected

  datatype Admitted = Accepted(reply: Reply) | Rejected(error: Rejection)

  /** The update validator, in the order it checks. */
  function Validate(cfg: Config, s: State, m: Message): Option<Rejection> {
    if s.closeReason.Some? then Some(AgentIsClosed)
    else if m.kind !in cfg.handlers then Some(UnknownFunction)
    else if !cfg.handlers[m.kind].accepts(m.payload) then Some(MalformedMessage)
    else if cfg.handlers[m.kind].midTurn.REJECT? && s.HasPendingWork() then Some(MidTurnRejected)
    else None
  }

  function Publish(s: State, turnId: Option<Uuid>, turnNumber: nat, messageId: Option<Uuid>, e: Event): State {
    s.(log := s.log + [Envelope(turnId, turnNumber, messageId, e)])
  }

  predicate Joins(cfg: Config, s: State, m: Message)
    requires m.kind in cfg.handlers
  {
    cfg.handlers[m.kind].midTurn.ACCEPT? && s.TurnActive()
  }

  /** The synchronous admission prologue. The message id is minted first, then the turn id. */
  function ReplyTo(cfg: Config, s: State, m: Message): Reply
    requires m.kind in cfg.handlers
  {
    if Joins(cfg, s, m) then
      var turnId := if s.currentTurnId.Some? then s.currentTurnId.value else 0;
      Reply(s.currentTurn, turnId, s.nextUuid, JOINED, |s.log|)
    else
      var d := if s.HasPendingWork() then QUEUED else OPENED;
      Reply(s.currentTurn + |s.pending| + 1, s.nextUuid + 1, s.nextUuid, d, |s.log|)
  }

  function AdmitValid(cfg: Config, s: State, m: Message): State
    requires m.kind in cfg.handlers
  {
    var r := ReplyTo(cfg, s, m);
    var a := Admission(m, r.turnId, r.turnNumber, r.messageId);
    var e := Envelope(Some(r.turnId), r.turnNumber, Some(r.messageId), MessageAccepted(m.kind, m.payload, r.disposition));
    if Joins(cfg, s, m) then
      s.(participants := s.participants + 1, joining := s.joining + [a], nextUuid := s.nextUuid + 1, log := s.log + [e])
    else
      s.(pending := s.pending + [a], nextUuid := s.nextUuid + 2, log := s.log + [e])
  }

  function Admit(cfg: Config, s: State, m: Message): (State, Admitted) {
    var error := Validate(cfg, s, m);
    if error.Some? then (s, Rejected(error.value)) else (AdmitValid(cfg, s, m), Accepted(ReplyTo(cfg, s, m)))
  }

  // ---- The run loop -------------------------------------------------------------

  function Close(s: State, reason: CloseReason): State {
    s.(closeReason := if s.closeReason.None? then Some(reason) else s.closeReason, closed := true)
  }

  /** The loop test, and the wait that `_wait_for_work` chooses. */
  function EnterLoop(cfg: Config, s: State): State {
    s.(loop :=
       if s.closed then Draining
       else if !cfg.closeAfterIdle then Parked(ForWork)
       else if !s.Idle() then Parked(ForWorkOrIdle)
       else Parked(ForWorkOrTimer))
  }

  function SpawnAll(tasks: map<Uuid, Participant>, joins: seq<Admission>): map<Uuid, Participant>
    decreases |joins|
  {
    if |joins| == 0 then tasks
    else SpawnAll(tasks[joins[0].messageId := Participant(joins[0], true, false)], joins[1..])
  }

  function OpenNextTurn(s: State): State
    requires |s.pending| > 0
  {
    var a := s.pending[0];
    s.(pending := s.pending[1..], currentTurn := s.currentTurn + 1, currentTurnId := Some(a.turnId), participants := 1,
       log := s.log + [Envelope(Some(a.turnId), a.turnNumber, None, TurnStarted)],
       tasks := s.tasks[a.messageId := Participant(a, false, false)])
  }

  /** Joins first: they belong to the turn that is already open. */
  function SpawnJoins(s: State): State {
    s.(tasks := SpawnAll(s.tasks, s.joining), joining := [])
  }

  function OpenIfPossible(s: State): State {
    if s.CanOpenTurn() then OpenNextTurn(s) else s
  }

  function LoopBody(cfg: Config, s: State): State {
    EnterLoop(cfg, OpenIfPossible(SpawnJoins(s)))
  }

  predicate CanFire(s: State) {
    match s.loop
    case Parked(ForWork) => s.HasWork()
    case Parked(ForWorkOrIdle) => s.HasWork() || s.Idle()
    case Parked(ForWorkOrTimer) => s.HasWork()
    case Draining => !s.TurnActive()
    case _ => false
  }

  function Fire(s: State): State {
    s.(loop := if s.loop.Draining? then Drained else Woken)
  }

  /** A message admitted in the same workflow task as the timer keeps the agent open. */
  function CloseIfIdle(s: State): State {
    if s.loop.TimedOut? && s.Idle() then Close(s, IDLE_TIMEOUT_EXPIRED) else s
  }

  function Resume(cfg: Config, s: State): State {
    if s.loop.Drained? then
      var s1 := s.(loop := Returned);
      if s.closeReason.Some? then Publish(s1, None, 0, None, AgentClosed(s.closeReason.value)) else s1
    else
      var s1 := CloseIfIdle(s);
      if s1.closed then s1.(loop := Draining) else LoopBody(cfg, s1)
  }

  // ---- Participants ----------------------------------------------------------------

  datatype Outcome = Replied(output: string) | Failure(message: string)

  function StartParticipant(s: State, m: Uuid): State
    requires m in s.tasks
  {
    var p := s.tasks[m];
    s.(tasks := s.tasks[m := p.(started := true)],
       log := s.log + [Envelope(Some(p.admission.turnId), p.admission.turnNumber, Some(m), MessageHandlerStart)])
  }

  /** `leave_turn`: the turn id is cleared only when the count reaches zero. */
  function LeaveTurn(s: State): State {
    if s.participants > 1 then s.(participants := s.participants - 1)
    else s.(participants := 0, currentTurnId := None)
  }

  /** The handler's own terminal; its coroutine is done. */
  function EndTask(s: State, m: Uuid, o: Outcome): State
    requires m in s.tasks
  {
    var a := s.tasks[m].admission;
    var e := if o.Replied? then MessageHandlerEnd(o.output) else MessageHandlerError(o.message);
    s.(tasks := s.tasks - {m}, log := s.log + [Envelope(Some(a.turnId), a.turnNumber, Some(m), e)])
  }

  /** The last participant drops what steering is left, then closes the bracket. */
  function CloseBracket(s: State, turnId: Uuid, turnNumber: nat): State {
    var s1 :=
      if s.steering == [] then s
      else Publish(s.(steering := []), Some(turnId), turnNumber, None, SteeringDropped(SteeringIds(s.steering)));
    Publish(s1, Some(turnId), turnNumber, None, TurnEnded)
  }

  function FinishParticipant(s: State, m: Uuid, o: Outcome): State
    requires m in s.tasks
  {
    var a := s.tasks[m].admission;
    var s1 := LeaveTurn(EndTask(s, m, o));
    if s1.TurnActive() then s1 else CloseBracket(s1, a.turnId, a.turnNumber)
  }

  /** Teardown of a parked participant: the count drops and nothing is published. */
  function AbandonParticipant(s: State, m: Uuid): State
    requires m in s.tasks
  {
    LeaveTurn(s.(tasks := s.tasks - {m}, abandoned := true))
  }

  /** A participant ends outside its own handlers of exceptions: its handler was done, and
      putting the outcome into an event raised (turning the reply into JSON, or an exception
      into text, is covered by none of them); or its task was cancelled before the coroutine
      began. It ends with no terminal and keeps its place in the count. */
  function LoseReply(s: State, m: Uuid): State
    requires m in s.tasks
  {
    s.(tasks := s.tasks - {m}, lost := s.lost + {m})
  }

  // ---- Steering ------------------------------------------------------------------------

  function SteeringIds(q: seq<SteeringMessage>): (ids: seq<Uuid>)
    ensures |ids| == |q| && forall i :: 0 <= i < |q| ==> ids[i] == q[i].steeringId
  {
    if q == [] then [] else [q[0].steeringId] + SteeringIds(q[1..])
  }

  /** `steer` from the context of message `m`: queued first, published second, and the
      publish raises when no turn is open. */
  function Steer(s: State, m: Uuid, text: string): State {
    var queue := s.steering + [SteeringMessage(s.nextUuid, m, text)];
    if s.currentTurnId.Some? then
      s.(steering := queue, nextUuid := s.nextUuid + 1,
         log := s.log + [Envelope(s.currentTurnId, s.currentTurn, Some(m), SteeringEnqueued(s.nextUuid, text))])
    else s.(steering := queue, nextUuid := s.nextUuid + 1)
  }

  function ClaimSteering(s: State, inTool: bool, m: Option<Uuid>): State {
    if inTool || s.steering == [] then s
    else if s.currentTurnId.Some? then
      s.(steering := [],
         log := s.log + [Envelope(s.currentTurnId, s.currentTurn, m, SteeringClaimed(SteeringIds(s.steering)))])
    else s.(steering := [])
  }

  // ---- Runs ------------------------------------------------------------------------------

  datatype Step =
    | AdmitMessage(message: Message)
    | CloseSignal
    | StartLoop
    | FireWait
    | FireTimer
    | ResumeLoop
    | Start(m: Uuid)
    | Finish(m: Uuid, outcome: Outcome)
    | Abandon(m: Uuid)
    | Lose(m: Uuid)
    | SteerFrom(m: Uuid, text: string)
    | Claim(inTool: bool, claimant: Option<Uuid>)
    | PublishOther(envelope: Envelope)

  predicate Enabled(s: State, step: Step) {
    match step
    case AdmitMessage(_) => true
    case CloseSignal => true
    case StartLoop => s.loop.NotStarted?
    case FireWait => CanFire(s)
    case FireTimer => s.loop == Parked(ForWorkOrTimer)
    case ResumeLoop => s.loop.Woken? || s.loop.TimedOut? || s.loop.Drained?
    case Start(m) => m in s.tasks && !s.tasks[m].started
    case Finish(m, _) => m in s.tasks && s.tasks[m].started
    case Abandon(m) => m in s.tasks && s.tasks[m].started
    case Lose(m) => m in s.tasks
    case SteerFrom(_, _) => true
    case Claim(_, _) => true
    case PublishOther(e) => !IsTurnEvent(e.event) && !IsSteeringEvent(e.event)
  }

  function Apply(cfg: Config, s: State, step: Step): State {
    if !Enabled(s, step) then s
    else
      match step
      case AdmitMessage(m) => Admit(cfg, s, m).0
      case CloseSignal => Close(s, REQUESTED)
      case StartLoop => EnterLoop(cfg, s)
      case FireWait => Fire(s)
      case FireTimer => s.(loop := TimedOut)
      case ResumeLoop => Resume(cfg, s)
      case Start(m) => StartParticipant(s, m)
      case Finish(m, o) => FinishParticipant(s, m, o)
      case Abandon(m) => AbandonParticipant(s, m)
      case Lose(m) => LoseReply(s, m)
      case SteerFrom(m, text) => Steer(s, m, text)
      case Claim(inTool, claimant) => ClaimSteering(s, inTool, claimant)
      case PublishOther(e) => s.(log := s.log + [e])
  }

  /** The state after a sequence of steps. */
  function Exec(cfg: Config, s: State, steps: seq<Step>): State
    decreases |steps|
  {
    if |steps| == 0 then s else Exec(cfg, Apply(cfg, s, steps[0]), steps[1..])
  }

  lemma {:induction false} ExecAppend(cfg: Config, s: State, xs: seq<Step>, ys: seq<Step>)
    ensures Exec(cfg, s, xs + ys) == Exec(cfg, Exec(cfg, s, xs), ys)
    decreases |xs|
  {
    if |xs| == 0 {
      assert xs + ys == ys;
    } else {
      assert (xs + ys)[1..] == xs[1..] + ys;
      ExecAppend(cfg, Apply(cfg, s, xs[0]), xs[1..], ys);
    }
  }
}
