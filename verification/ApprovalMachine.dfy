/** The tool-approval gate as a state machine: registration, the auto mode evaluator running
    as its own task, human decisions, policy updates that cascade, and agent close, racing
    for every gated call. One step is the code between two awaits. */
module ApprovalMachine {
  import opened Protocol

  datatype Policy = Policy(skipAll: bool, allowSafe: bool, tools: set<string>, autoMode: bool)
  {
    predicate AutoApproves(toolName: string, inherentlySafe: bool) {
      skipAll || (inherentlySafe && allowSafe) || toolName in tools
    }

    function WithToolAllowed(toolName: string): (p: Policy)
      ensures forall safe :: p.AutoApproves(toolName, safe)
      ensures forall name, safe :: AutoApproves(name, safe) ==> p.AutoApproves(name, safe)
      ensures p.autoMode == autoMode
    {
      this.(tools := tools + {toolName})
    }
  }

  datatype Status = PENDING | APPROVED | DENIED

  /** `turnId`, `turnNumber` and `messageId` are the turn and message that own the call. */
  datatype Entry = Entry(
    toolName: string,
    turnId: Option<Uuid>,
    turnNumber: nat,
    messageId: Option<Uuid>,
    inherentlySafe: bool,
    status: Status,
    reason: Option<string>,
    remember: bool)

  /** The evaluator's own task. `Malformed`: it returned something that is not a decision, and has
      no verdict. `Aborted`: it ended cancelled itself. */
  datatype EvaluatorTask = Running | Decided(verdict: Verdict, reason: Option<string>) | Raised | Malformed | Aborted

  /** Where one gated call's coroutine is. `Left`: it is gone without having dispatched or denied;
      `evaluation` is the evaluation it was at. */
  datatype Gate =
    | Evaluating(evaluationId: Uuid, task: EvaluatorTask)
    | Cancelling(evaluationId: Uuid, reached: Option<Verdict>)
    | Parked
    | Exited(dispatched: bool)
    | Left(evaluation: Option<Uuid>)

  datatype State = State(
    policy: Policy,
    hasEvaluator: bool,
    entries: map<ToolId, Entry>,
    order: seq<ToolId>,            // registration order of `entries`
    gates: map<ToolId, Gate>,
    closed: bool,
    nextUuid: nat,
    log: seq<Envelope>)
  {
    predicate Resolved(id: ToolId) { id in entries && entries[id].status != PENDING }

    predicate Settled(id: ToolId) { Resolved(id) || closed }
  }

  function Init(policy: Policy, hasEvaluator: bool): State {
    State(policy, hasEvaluator, map[], [], map[], false, 0, [])
  }

  /** A policy with auto mode on is refused unless an evaluator is wired. */
  predicate Installable(s: State, p: Policy) {
    p.autoMode ==> s.hasEvaluator
  }

  function Publish(s: State, id: ToolId, e: Event): State
    requires id in s.entries
  {
    var x := s.entries[id];
    s.(log := s.log + [Envelope(x.turnId, x.turnNumber, x.messageId, e)])
  }

  // ---- Registration -----------------------------------------------------------------

  /** An id already present is overwritten in place. */
  function Register(s: State, id: ToolId, x: Entry): State {
    s.(entries := s.entries[id := x], order := if id in s.entries then s.order else s.order + [id])
  }

  /** The gate up to its first await. `governed`: a criteria set covers this tool. */
  function Request(s: State, id: ToolId, x: Entry, governed: bool): State {
    if s.policy.AutoApproves(x.toolName, x.inherentlySafe) then s
    else
      var s1 := Publish(Register(s, id, x), id, ToolApprovalRequested(id, x.toolName));
      if s.hasEvaluator && s.policy.autoMode && governed then
        var s2 := s1.(gates := s1.gates[id := Evaluating(s.nextUuid, Running)], nextUuid := s.nextUuid + 1);
        Publish(s2, id, EvaluationStarted(id, s.nextUuid))
      else s1.(gates := s1.gates[id := Parked])
  }

  // ---- Resolution -----------------------------------------------------------------------

  function Resolve(s: State, id: ToolId, approved: bool, reason: Option<string>, remember: bool): State
    requires id in s.entries
  {
    var x := s.entries[id].(status := if approved then APPROVED else DENIED, reason := reason, remember := remember);
    Publish(s.(entries := s.entries[id := x]), id, ToolApprovalResolved(id, x.toolName, approved, reason, remember))
  }

  const RELEASED := Some("auto-approved by updated policy")

  function PendingIds(entries: map<ToolId, Entry>, order: seq<ToolId>): seq<ToolId>
    requires forall id <- order :: id in entries
  {
    if order == [] then []
    else (if entries[order[0]].status == PENDING then [order[0]] else []) + PendingIds(entries, order[1..])
  }

  /** The loop of a policy update over the calls that were pending when it began. */
  function Cascade(s: State, ids: seq<ToolId>): State
    requires forall id <- ids :: id in s.entries
    decreases |ids|
  {
    if ids == [] then s
    else
      var x := s.entries[ids[0]];
      var s1 := if s.policy.AutoApproves(x.toolName, x.inherentlySafe) then Resolve(s, ids[0], true, RELEASED, false) else s;
      Cascade(s1, ids[1..])
  }

  function ApplyPolicy(s: State, p: Policy): State
    requires forall id <- s.order :: id in s.entries
  {
    if !Installable(s, p) then s else Cascade(s.(policy := p), AllPending(s))
  }

  function AllPending(s: State): (ids: seq<ToolId>)
    requires forall id <- s.order :: id in s.entries
    ensures forall id <- ids :: id in s.entries
  {
    PendingInOrder(s.entries, s.order);
    PendingIds(s.entries, s.order)
  }

  lemma PendingInOrder(entries: map<ToolId, Entry>, order: seq<ToolId>)
    requires forall id <- order :: id in entries
    ensures forall id :: id in PendingIds(entries, order) <==> id in order && entries[id].status == PENDING
  {
  }

  datatype ApprovalRejection = UnknownToolApproval | ToolApprovalAlreadyResolved

  function ValidateDecision(s: State, id: ToolId): Option<ApprovalRejection> {
    if id !in s.entries then Some(UnknownToolApproval)
    else if s.entries[id].status != PENDING then Some(ToolApprovalAlreadyResolved)
    else None
  }

  /** A human decision: resolved and published first, then, if remembered, the policy grows. */
  function Decide(s: State, id: ToolId, approved: bool, reason: Option<string>, remember: bool): State
    requires forall id <- s.order :: id in s.entries
  {
    if ValidateDecision(s, id).Some? then s
    else
      var s1 := Resolve(s, id, approved, reason, remember);
      if approved && remember then ApplyPolicy(s1, s1.policy.WithToolAllowed(s.entries[id].toolName)) else s1
  }

  // ---- The evaluator's race ----------------------------------------------------------------

  predicate TaskDone(t: EvaluatorTask) { !t.Running? }

  /** The gate wakes beside its evaluator: the evaluator is done, or somebody else settled it. Two
      things raise out of the gate here: looking for the verdict of a malformed result, and
      awaiting an evaluator that was cancelled, which is no ordinary exception. */
  function ResumeEvaluation(s: State, id: ToolId): State
    requires id in s.entries && id in s.gates && s.gates[id].Evaluating?
  {
    var g := s.gates[id];
    if s.Settled(id) then
      if g.task.Malformed? then LeaveGate(s, id)
      else
        var reached := if g.task.Decided? then Some(g.task.verdict) else None;
        if TaskDone(g.task) then Supersede(s, id, g.evaluationId, reached)
        else s.(gates := s.gates[id := Cancelling(g.evaluationId, reached)])
    else if g.task.Aborted? then LeaveGate(s, id)
    else
      var s1 := s.(gates := s.gates[id := Parked]);
      if !g.task.Decided? then Publish(s1, id, EvaluationError(id, g.evaluationId))
      else
        var s2 := Publish(s1, id, EvaluationEnded(id, g.evaluationId, g.task.verdict));
        match g.task.verdict
        case APPROVE => Resolve(s2, id, true, g.task.reason, false)
        case DENY => Resolve(s2, id, false, g.task.reason, false)
        case ESCALATE => s2
  }

  /** The coroutine ends where it is: there is nothing to clean up on the way out. */
  function LeaveGate(s: State, id: ToolId): State
    requires id in s.gates
  {
    var g := s.gates[id];
    var open := if g.Evaluating? || g.Cancelling? then Some(g.evaluationId) else None;
    s.(gates := s.gates[id := Left(open)])
  }

  predicate Gone(g: Gate) { g.Exited? || g.Left? }

  function Supersede(s: State, id: ToolId, evaluationId: Uuid, reached: Option<Verdict>): State
    requires id in s.entries
  {
    Publish(s.(gates := s.gates[id := Parked]), id, EvaluationSuperseded(id, evaluationId, reached))
  }

  /** The human gate's wait is over: a decision, or the agent is closing. */
  function ResumeGate(s: State, id: ToolId): State
    requires id in s.entries && id in s.gates
  {
    var s1 :=
      if s.Resolved(id) then s
      else Resolve(s, id, false, Some(if s.closed then "agent closed before approval" else "approval unresolved"),
                   s.entries[id].remember);
    s1.(gates := s1.gates[id := Exited(s1.entries[id].status == APPROVED)])
  }

  // ---- Runs -----------------------------------------------------------------------------------

  datatype Step =
    | RequestCall(id: ToolId, entry: Entry, governed: bool)
    | HumanDecision(id: ToolId, approved: bool, reason: Option<string>, remember: bool)
    | SetPolicy(policy: Policy)
    | EvaluatorEnds(id: ToolId, outcome: EvaluatorTask)
    | WakeEvaluation(id: ToolId)
    | CancelSettles(id: ToolId)
    | CancelGate(id: ToolId)
    | TearDownGate(id: ToolId)
    | WakeGate(id: ToolId)
    | CloseAgent
    | PublishOther(envelope: Envelope)

  predicate Enabled(s: State, step: Step) {
    match step
    case RequestCall(id, x, _) => id !in s.entries && x.status == PENDING && x.reason.None? && !x.remember
    case HumanDecision(_, _, _, _) => true
    case SetPolicy(_) => true
    case EvaluatorEnds(id, o) => id in s.gates && s.gates[id].Evaluating? && s.gates[id].task.Running? && TaskDone(o)
    case WakeEvaluation(id) => id in s.gates && s.gates[id].Evaluating? && (TaskDone(s.gates[id].task) || s.Settled(id))
    case CancelSettles(id) => id in s.gates && s.gates[id].Cancelling?
    case CancelGate(id) => id in s.gates && (s.gates[id].Evaluating? || s.gates[id].Parked?)
    case TearDownGate(id) => id in s.gates && !Gone(s.gates[id])
    case WakeGate(id) => id in s.gates && s.gates[id].Parked? && s.Settled(id)
    case CloseAgent => true
    case PublishOther(e) => !IsApprovalEvent(e.event)
  }

  // A gate cancelled while it waits for its evaluator to unwind is not in this list: that wait
  // swallows the cancellation, and the gate goes on.

  /** The registry's bookkeeping: every registered call has a gate and a place in the order. */
  ghost predicate Registered(s: State) {
    && (forall id :: id in s.gates <==> id in s.entries)
    && (forall id :: id in s.order <==> id in s.entries)
    && (forall i, j :: 0 <= i < j < |s.order| ==> s.order[i] != s.order[j])
  }

  function Apply(s: State, step: Step): State
    requires Registered(s)
  {
    if !Enabled(s, step) then s
    else
      match step
      case RequestCall(id, x, governed) => Request(s, id, x, governed)
      case HumanDecision(id, approved, reason, remember) => Decide(s, id, approved, reason, remember)
      case SetPolicy(p) => ApplyPolicy(s, p)
      case EvaluatorEnds(id, o) => s.(gates := s.gates[id := Evaluating(s.gates[id].evaluationId, o)])
      case WakeEvaluation(id) => ResumeEvaluation(s, id)
      case CancelSettles(id) => Supersede(s, id, s.gates[id].evaluationId, s.gates[id].reached)
      case CancelGate(id) => LeaveGate(s, id)
      case TearDownGate(id) => LeaveGate(s, id)
      case WakeGate(id) => ResumeGate(s, id)
      case CloseAgent => s.(closed := true)
      case PublishOther(e) => s.(log := s.log + [e])
  }
}
