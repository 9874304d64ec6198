/** Every race over a gated call ends the same way in the log: one request, one resolution,
    one closed evaluation, and a dispatch exactly when the resolution approved. */
module ApprovalTheorems {
  import opened Collections
  import opened Protocol
  import opened ApprovalMachine

  // ---- The grammar of approval events ----------------------------------------------------

  /** `SupersededEval(settled)`: whether a resolution had been published by then. */
  datatype Evaluation =
    | NoEvaluation
    | OpenEval(id: Uuid)
    | EndedEval(verdict: Verdict)
    | SupersededEval(settled: bool)
    | FailedEval

  datatype Story = Story(
    toolName: string,
    turnId: Option<Uuid>,
    turnNumber: nat,
    messageId: Option<Uuid>,
    resolved: Option<bool>,
    evaluation: Evaluation)

  /** `owed`: the very next envelope must be this call's resolution with this outcome. */
  datatype Reading = Reading(calls: map<ToolId, Story>, owed: Option<(ToolId, bool)>)

  const START := Reading(map[], None)

  predicate Attributed(e: Envelope, c: Story) {
    e.turnId == c.turnId && e.turnNumber == c.turnNumber && e.messageId == c.messageId
  }

  function SetEvaluation(g: Reading, id: ToolId, v: Evaluation): Reading
    requires id in g.calls
  {
    g.(calls := g.calls[id := g.calls[id].(evaluation := v)])
  }

  predicate Known(g: Reading, e: Envelope, id: ToolId) {
    id in g.calls && Attributed(e, g.calls[id])
  }

  function Accept(g: Reading, e: Envelope): Option<Reading> {
    if g.owed.Some? && !e.event.ToolApprovalResolved? then None
    else
      match e.event
      case ToolApprovalRequested(id, name) =>
        if id in g.calls then None
        else Some(g.(calls := g.calls[id := Story(name, e.turnId, e.turnNumber, e.messageId, None, NoEvaluation)]))
      case EvaluationStarted(id, v) =>
        if Known(g, e, id) && g.calls[id].resolved.None? && g.calls[id].evaluation == NoEvaluation
        then Some(SetEvaluation(g, id, OpenEval(v))) else None
      case EvaluationEnded(id, v, verdict) =>
        if Known(g, e, id) && g.calls[id].resolved.None? && g.calls[id].evaluation == OpenEval(v)
        then Some(SetEvaluation(g, id, EndedEval(verdict)).(
                    owed := if verdict.ESCALATE? then None else Some((id, verdict.APPROVE?))))
        else None
      case EvaluationSuperseded(id, v, _) =>
        if Known(g, e, id) && g.calls[id].evaluation == OpenEval(v)
        then Some(SetEvaluation(g, id, SupersededEval(g.calls[id].resolved.Some?))) else None
      case EvaluationError(id, v) =>
        if Known(g, e, id) && g.calls[id].resolved.None? && g.calls[id].evaluation == OpenEval(v)
        then Some(SetEvaluation(g, id, FailedEval)) else None
      case ToolApprovalResolved(id, name, approved, _, _) =>
        if Known(g, e, id) && g.calls[id].toolName == name && g.calls[id].resolved.None?
           && (g.owed.None? || g.owed == Some((id, approved)))
        then Some(Reading(g.calls[id := g.calls[id].(resolved := Some(approved))], None)) else None
      case _ => Some(g)
  }

  function Scan(log: seq<Envelope>): Option<Reading> {
    if |log| == 0 then Some(START)
    else
      var before := Scan(log[..|log| - 1]);
      if before.None? then None else Accept(before.value, log[|log| - 1])
  }

  lemma ScanAppend(log: seq<Envelope>, e: Envelope)
    ensures Scan(log + [e]) == if Scan(log).None? then None else Accept(Scan(log).value, e)
  {
    assert (log + [e])[..|log|] == log;
  }

  // ---- The runner's registry against the log -------------------------------------------------

  function Outcome(s: Status): Option<bool> {
    match s
    case PENDING => None
    case APPROVED => Some(true)
    case DENIED => Some(false)
  }

  predicate SameCall(x: Entry, c: Story) {
    c.toolName == x.toolName && c.turnId == x.turnId && c.turnNumber == x.turnNumber && c.messageId == x.messageId
    && c.resolved == Outcome(x.status)
  }

  /** Where the coroutine is, against what was published about its evaluation. */
  predicate GateAgrees(g: Gate, x: Entry, v: Evaluation, closed: bool) {
    match g
    case Evaluating(id, _) => v == OpenEval(id)
    case Cancelling(id, _) => v == OpenEval(id) && (x.status != PENDING || closed)
    case Parked => !v.OpenEval?
    case Exited(dispatched) => !v.OpenEval? && x.status != PENDING && (dispatched <==> x.status == APPROVED)
    case Left(open) => if open.Some? then v == OpenEval(open.value) else !v.OpenEval?
  }

  ghost predicate CallAgrees(s: State, g: Reading, id: ToolId) {
    && id in s.entries && id in s.gates && id in g.calls
    && SameCall(s.entries[id], g.calls[id])
    && GateAgrees(s.gates[id], s.entries[id], g.calls[id].evaluation, s.closed)
    && (g.calls[id].evaluation == SupersededEval(false) ==> s.closed)
  }

  /** While a cascade is under way `todo` holds the calls it has still to visit. */
  ghost predicate Fixpoint(s: State, todo: seq<ToolId>) {
    forall id <- s.entries ::
      s.entries[id].status == PENDING && s.policy.AutoApproves(s.entries[id].toolName, s.entries[id].inherentlySafe)
      ==> id in todo
  }

  ghost predicate Agrees(s: State, g: Reading) {
    && Registered(s)
    && g.owed.None? && (forall id :: id in g.calls <==> id in s.entries)
    && (forall id <- s.entries :: CallAgrees(s, g, id))
  }

  ghost predicate Core(s: State) {
    Scan(s.log).Some? && Agrees(s, Scan(s.log).value)
  }

  ghost predicate Inv(s: State) {
    Core(s) && Fixpoint(s, [])
  }

  // ---- One call moves ------------------------------------------------------------------------------

  predicate CallFits(x: Entry, gate: Gate, c: Story, closed: bool) {
    SameCall(x, c) && GateAgrees(gate, x, c.evaluation, closed) && (c.evaluation == SupersededEval(false) ==> closed)
  }

  /** `t` is `s` except for call `id`. */
  ghost predicate OnlyMoves(s: State, t: State, id: ToolId) {
    && t.closed == s.closed && t.order == s.order
    && (forall j :: (j in t.entries <==> j in s.entries) && (j in t.gates <==> j in s.gates))
    && (forall j <- s.entries :: j != id ==> t.entries[j] == s.entries[j])
    && (forall j <- s.gates :: j != id ==> t.gates[j] == s.gates[j])
  }

  lemma OthersAgree(s: State, t: State, g: Reading, id: ToolId, c: Story, j: ToolId)
    requires CallAgrees(s, g, j) && OnlyMoves(s, t, id) && j != id
    ensures CallAgrees(t, g.(calls := g.calls[id := c]), j)
  {
  }

  /** Only call `id` moves, on both sides. */
  lemma MoveAgrees(s: State, t: State, g: Reading, id: ToolId, c: Story)
    requires Agrees(s, g) && OnlyMoves(s, t, id) && id in t.entries && id in t.gates
    requires CallFits(t.entries[id], t.gates[id], c, s.closed)
    ensures Agrees(t, g.(calls := g.calls[id := c]))
  {
    EachAgrees(s, t, g, id, c);
    StillRegistered(s, t, id);
    assert id in s.entries && id in g.calls;
  }

  lemma EachAgrees(s: State, t: State, g: Reading, id: ToolId, c: Story)
    requires Agrees(s, g) && OnlyMoves(s, t, id) && id in t.entries && id in t.gates
    requires CallFits(t.entries[id], t.gates[id], c, s.closed)
    ensures forall j <- t.entries :: CallAgrees(t, g.(calls := g.calls[id := c]), j)
  {
    forall j | j in t.entries
      ensures CallAgrees(t, g.(calls := g.calls[id := c]), j)
    {
      if j == id {
        FitsAgrees(t, g.(calls := g.calls[id := c]), id, s.closed);
      } else {
        OthersAgree(s, t, g, id, c, j);
      }
    }
  }

  lemma FitsAgrees(t: State, h: Reading, id: ToolId, closed: bool)
    requires id in t.entries && id in t.gates && id in h.calls && t.closed == closed
    requires CallFits(t.entries[id], t.gates[id], h.calls[id], closed)
    ensures CallAgrees(t, h, id)
  {
  }

  lemma StillRegistered(s: State, t: State, id: ToolId)
    requires Registered(s) && OnlyMoves(s, t, id)
    ensures Registered(t)
  {
  }

  lemma Published(s: State, t: State, e: Envelope, g: Reading)
    requires Scan(s.log).Some? && t.log == s.log + [e] && Accept(Scan(s.log).value, e) == Some(g) && Agrees(t, g)
    ensures Core(t)
  {
    ScanAppend(s.log, e);
  }

  /** What the log and the registry say about one call in a sound state. */
  lemma Look(s: State, id: ToolId) returns (c: Story)
    requires Core(s) && id in s.entries
    ensures id in s.gates && id in Scan(s.log).value.calls && c == Scan(s.log).value.calls[id]
    ensures CallFits(s.entries[id], s.gates[id], c, s.closed)
  {
    c := Scan(s.log).value.calls[id];
    assert CallAgrees(s, Scan(s.log).value, id);
  }

  /** One envelope about call `id`, whose gate moves with it. */
  lemma GateEvent(s: State, id: ToolId, gate: Gate, c: Story, e: Envelope)
    requires Core(s) && id in s.entries && CallFits(s.entries[id], gate, c, s.closed)
    requires Accept(Scan(s.log).value, e) == Some(Scan(s.log).value.(calls := Scan(s.log).value.calls[id := c]))
    ensures Core(s.(gates := s.gates[id := gate], log := s.log + [e]))
  {
    var t := s.(gates := s.gates[id := gate], log := s.log + [e]);
    MoveAgrees(s, t, Scan(s.log).value, id, c);
    Published(s, t, e, Scan(s.log).value.(calls := Scan(s.log).value.calls[id := c]));
  }

  lemma EntryEvent(s: State, id: ToolId, x: Entry, c: Story, e: Envelope)
    requires Core(s) && id in s.entries && id in s.gates && CallFits(x, s.gates[id], c, s.closed)
    requires Accept(Scan(s.log).value, e) == Some(Scan(s.log).value.(calls := Scan(s.log).value.calls[id := c]))
    ensures Core(s.(entries := s.entries[id := x], log := s.log + [e]))
  {
    var t := s.(entries := s.entries[id := x], log := s.log + [e]);
    MoveAgrees(s, t, Scan(s.log).value, id, c);
    Published(s, t, e, Scan(s.log).value.(calls := Scan(s.log).value.calls[id := c]));
  }

  lemma QuietMove(s: State, id: ToolId, gate: Gate)
    requires Core(s) && id in s.entries && CallFits(s.entries[id], gate, Scan(s.log).value.calls[id], s.closed)
    ensures Core(s.(gates := s.gates[id := gate]))
  {
    var t := s.(gates := s.gates[id := gate]);
    forall j | j in t.entries
      ensures CallAgrees(t, Scan(s.log).value, j)
    {
      assert CallAgrees(s, Scan(s.log).value, j);
    }
  }

  lemma ResolveCore(s: State, id: ToolId, approved: bool, reason: Option<string>, remember: bool)
    requires Core(s) && id in s.entries && s.entries[id].status == PENDING
    ensures Core(Resolve(s, id, approved, reason, remember))
  {
    var c := Look(s, id);
    var t := Resolve(s, id, approved, reason, remember);
    EntryEvent(s, id, t.entries[id], c.(resolved := Some(approved)), t.log[|s.log|]);
  }

  lemma SupersedeCore(s: State, id: ToolId, v: Uuid, reached: Option<Verdict>)
    requires Core(s) && id in s.entries && s.Settled(id) && Scan(s.log).value.calls[id].evaluation == OpenEval(v)
    ensures Core(Supersede(s, id, v, reached))
  {
    var c := Look(s, id);
    GateEvent(s, id, Parked, c.(evaluation := SupersededEval(c.resolved.Some?)), Supersede(s, id, v, reached).log[|s.log|]);
  }

  /** An evaluator that raised, or returned no decision, decides nothing. */
  lemma FailureCore(s: State, id: ToolId)
    requires Core(s) && id in s.gates && s.gates[id].Evaluating? && !s.Settled(id)
    requires !s.gates[id].task.Decided? && !s.gates[id].task.Aborted?
    ensures Core(ResumeEvaluation(s, id)) && ResumeEvaluation(s, id).entries == s.entries
  {
    var c := Look(s, id);
    GateEvent(s, id, Parked, c.(evaluation := FailedEval), ResumeEvaluation(s, id).log[|s.log|]);
  }

  lemma EscalateCore(s: State, id: ToolId)
    requires Core(s) && id in s.gates && s.gates[id].Evaluating? && !s.Settled(id)
    requires s.gates[id].task.Decided? && s.gates[id].task.verdict.ESCALATE?
    ensures Core(ResumeEvaluation(s, id)) && ResumeEvaluation(s, id).entries == s.entries
  {
    var c := Look(s, id);
    GateEvent(s, id, Parked, c.(evaluation := EndedEval(ESCALATE)), ResumeEvaluation(s, id).log[|s.log|]);
  }

  /** The acceptor over a verdict and its resolution. */
  lemma VerdictPair(g: Reading, id: ToolId, v: Uuid, x: Entry, verdict: Verdict, reason: Option<string>)
    requires id in g.calls && g.owed.None? && !verdict.ESCALATE?
    requires SameCall(x, g.calls[id]) && x.status == PENDING && g.calls[id].evaluation == OpenEval(v)
    ensures var e1 := Envelope(x.turnId, x.turnNumber, x.messageId, EvaluationEnded(id, v, verdict));
            var e2 := Envelope(x.turnId, x.turnNumber, x.messageId,
                               ToolApprovalResolved(id, x.toolName, verdict.APPROVE?, reason, false));
            var c := DecidedStory(g.calls[id], verdict);
            && Accept(g, e1).Some?
            && Accept(Accept(g, e1).value, e2) == Some(g.(calls := g.calls[id := c]))
  {
    var c1 := g.calls[id].(evaluation := EndedEval(verdict));
    var c2 := c1.(resolved := Some(verdict.APPROVE?));
    assert g.calls[id := c1][id := c2] == g.calls[id := c2];
  }

  lemma VerdictShape(s: State, id: ToolId) returns (e1: Envelope, e2: Envelope)
    requires id in s.entries && id in s.gates && s.gates[id].Evaluating? && !s.Settled(id)
    requires s.gates[id].task.Decided? && !s.gates[id].task.verdict.ESCALATE?
    ensures var t := ResumeEvaluation(s, id);
            var x := s.entries[id];
            var task := s.gates[id].task;
            && t.log == s.log + [e1] + [e2] && OnlyMoves(s, t, id) && id in t.entries && id in t.gates
            && t.gates[id] == Parked
            && t.entries[id] == x.(status := if task.verdict.APPROVE? then APPROVED else DENIED, reason := task.reason,
                                   remember := false)
            && e1 == Envelope(x.turnId, x.turnNumber, x.messageId,
                              EvaluationEnded(id, s.gates[id].evaluationId, task.verdict))
            && e2 == Envelope(x.turnId, x.turnNumber, x.messageId,
                              ToolApprovalResolved(id, x.toolName, task.verdict.APPROVE?, task.reason, false))
  {
    var t := ResumeEvaluation(s, id);
    e1, e2 := t.log[|s.log|], t.log[|s.log| + 1];
  }

  lemma VerdictAgrees(s: State, t: State, g: Reading, id: ToolId)
    requires Agrees(s, g) && OnlyMoves(s, t, id) && id in s.gates && s.gates[id].Evaluating? && id in t.entries && id in t.gates
    requires s.gates[id].task.Decided? && id in g.calls && t.gates[id] == Parked
    requires t.entries[id] == s.entries[id].(status := if s.gates[id].task.verdict.APPROVE? then APPROVED else DENIED,
                                             reason := t.entries[id].reason, remember := false)
    ensures Agrees(t, g.(calls := g.calls[id := DecidedStory(g.calls[id], s.gates[id].task.verdict)]))
  {
    assert CallAgrees(s, g, id);
    MoveAgrees(s, t, g, id, DecidedStory(g.calls[id], s.gates[id].task.verdict));
  }

  function DecidedStory(c: Story, verdict: Verdict): Story {
    c.(evaluation := EndedEval(verdict), resolved := Some(verdict.APPROVE?))
  }

  /** A verdict and its resolution are one atomic pair of envelopes. */
  lemma VerdictCore(s: State, id: ToolId)
    requires Core(s) && id in s.gates && id in s.entries && s.gates[id].Evaluating? && !s.Settled(id)
    requires s.gates[id].task.Decided? && !s.gates[id].task.verdict.ESCALATE?
    ensures Core(ResumeEvaluation(s, id))
  {
    var c := Look(s, id);
    var task := s.gates[id].task;
    var e1, e2 := VerdictShape(s, id);
    VerdictPair(Scan(s.log).value, id, s.gates[id].evaluationId, s.entries[id], task.verdict, task.reason);
    VerdictAgrees(s, ResumeEvaluation(s, id), Scan(s.log).value, id);
    PublishedPair(s, ResumeEvaluation(s, id), e1, e2, DecidedStory(c, task.verdict), id);
  }

  lemma PublishedPair(s: State, t: State, e1: Envelope, e2: Envelope, c: Story, id: ToolId)
    requires Scan(s.log).Some? && t.log == s.log + [e1] + [e2]
    requires var g := Scan(s.log).value;
             && Accept(g, e1).Some?
             && Accept(Accept(g, e1).value, e2) == Some(g.(calls := g.calls[id := c]))
             && Agrees(t, g.(calls := g.calls[id := c]))
    ensures Core(t)
  {
    ScanAppend(s.log, e1);
    ScanAppend(s.log + [e1], e2);
  }

  /** A call new to the registry and to the log. */
  lemma RegisterCore(s: State, id: ToolId, x: Entry)
    requires Core(s) && Enabled(s, RequestCall(id, x, true))
    ensures Core(Parked1(s, id, x))
  {
    var t := Parked1(s, id, x);
    var g := Scan(s.log).value;
    var g' := g.(calls := g.calls[id := Story(x.toolName, x.turnId, x.turnNumber, x.messageId, None, NoEvaluation)]);
    assert Accept(g, t.log[|s.log|]) == Some(g');
    assert Registered(t);
    forall j | j in t.entries
      ensures CallAgrees(t, g', j)
    {
      assert j != id ==> CallAgrees(s, g, j);
    }
    Published(s, t, t.log[|s.log|], g');
  }

  /** The registration with its request event, parked at the human gate. */
  function Parked1(s: State, id: ToolId, x: Entry): State {
    Publish(Register(s, id, x), id, ToolApprovalRequested(id, x.toolName)).(gates := s.gates[id := Parked])
  }

  lemma EvaluationOpens(s: State, id: ToolId, v: Uuid)
    requires Core(s) && id in s.entries && s.gates[id] == Parked && s.entries[id].status == PENDING
    requires Scan(s.log).value.calls[id].evaluation == NoEvaluation
    ensures Core(Publish(s, id, EvaluationStarted(id, v)).(gates := s.gates[id := Evaluating(v, Running)]))
  {
    var c := Look(s, id);
    var t := Publish(s, id, EvaluationStarted(id, v));
    GateEvent(s, id, Evaluating(v, Running), c.(evaluation := OpenEval(v)), t.log[|s.log|]);
  }

  /** The core facts do not mention the uuid counter. */
  lemma CounterMoves(s: State, n: nat)
    requires Core(s)
    ensures Core(s.(nextUuid := n))
  {
    var t := s.(nextUuid := n);
    forall j | j in t.entries
      ensures CallAgrees(t, Scan(s.log).value, j)
    {
      assert CallAgrees(s, Scan(s.log).value, j);
    }
  }

  /** A call whose evaluation opens in the same step as its registration. */
  lemma EvaluatedRequest(s: State, id: ToolId, x: Entry)
    requires Core(s) && Enabled(s, RequestCall(id, x, true))
    ensures Core(Publish(Parked1(s, id, x), id, EvaluationStarted(id, s.nextUuid)).(
                   gates := s.gates[id := Evaluating(s.nextUuid, Running)], nextUuid := s.nextUuid + 1))
  {
    RegisterCore(s, id, x);
    NewStory(s, id, x);
    var s1 := Parked1(s, id, x);
    EvaluationOpens(s1, id, s.nextUuid);
    TwoUpdates(s.gates, id, Parked, Evaluating(s.nextUuid, Running));
    CounterMoves(Publish(s1, id, EvaluationStarted(id, s.nextUuid)).(gates := s.gates[id := Evaluating(s.nextUuid, Running)]),
                 s.nextUuid + 1);
  }

  lemma RequestShape(s: State, id: ToolId, x: Entry, governed: bool)
    requires !s.policy.AutoApproves(x.toolName, x.inherentlySafe)
    ensures Request(s, id, x, governed)
            == if s.hasEvaluator && s.policy.autoMode && governed
               then Publish(Parked1(s, id, x), id, EvaluationStarted(id, s.nextUuid)).(
                      gates := s.gates[id := Evaluating(s.nextUuid, Running)], nextUuid := s.nextUuid + 1)
               else Parked1(s, id, x)
  {
  }

  lemma RequestCore(s: State, id: ToolId, x: Entry, governed: bool)
    requires Core(s) && Enabled(s, RequestCall(id, x, governed)) && !s.policy.AutoApproves(x.toolName, x.inherentlySafe)
    ensures Core(Request(s, id, x, governed))
  {
    RequestShape(s, id, x, governed);
    if s.hasEvaluator && s.policy.autoMode && governed {
      EvaluatedRequest(s, id, x);
    } else {
      RegisterCore(s, id, x);
    }
  }

  lemma TwoUpdates(m: map<ToolId, Gate>, id: ToolId, a: Gate, b: Gate)
    ensures m[id := a][id := b] == m[id := b]
  {
  }

  lemma NewStory(s: State, id: ToolId, x: Entry)
    requires Core(s) && id !in s.entries
    ensures var g := Scan(Parked1(s, id, x).log);
            g.Some? && id in g.value.calls && g.value.calls[id].evaluation == NoEvaluation
  {
    ScanAppend(s.log, Parked1(s, id, x).log[|s.log|]);
  }

  // ---- The policy is a fixpoint -----------------------------------------------------------------------

  lemma ResolveFixpoint(s: State, id: ToolId, approved: bool, reason: Option<string>, remember: bool, todo: seq<ToolId>)
    requires id in s.entries && Fixpoint(s, todo)
    ensures Fixpoint(Resolve(s, id, approved, reason, remember), todo)
    ensures |todo| > 0 && todo[0] == id ==> Fixpoint(Resolve(s, id, approved, reason, remember), todo[1..])
  {
  }

  lemma RequestFixpoint(s: State, id: ToolId, x: Entry, governed: bool)
    requires Fixpoint(s, [])
    ensures Fixpoint(Request(s, id, x, governed), [])
  {
  }

  lemma SameFixpoint(s: State, t: State)
    requires Fixpoint(s, []) && t.entries == s.entries && t.policy == s.policy
    ensures Fixpoint(t, [])
  {
  }

  // ---- Steps ----------------------------------------------------------------------------------------------

  lemma RequestKeeps(s: State, id: ToolId, x: Entry, governed: bool)
    requires Inv(s) && Enabled(s, RequestCall(id, x, governed))
    ensures Inv(Request(s, id, x, governed))
  {
    RequestFixpoint(s, id, x, governed);
    if !s.policy.AutoApproves(x.toolName, x.inherentlySafe) {
      RequestCore(s, id, x, governed);
    }
  }

  lemma SettledWake(s: State, id: ToolId)
    requires Core(s) && Enabled(s, WakeEvaluation(id)) && s.Settled(id)
    ensures Core(ResumeEvaluation(s, id)) && ResumeEvaluation(s, id).entries == s.entries
  {
    var c := Look(s, id);
    var g := s.gates[id];
    var reached := if g.task.Decided? then Some(g.task.verdict) else None;
    if g.task.Malformed? {
      QuietMove(s, id, Left(Some(g.evaluationId)));
    } else if TaskDone(g.task) {
      SupersedeCore(s, id, g.evaluationId, reached);
    } else {
      QuietMove(s, id, Cancelling(g.evaluationId, reached));
    }
  }

  lemma VerdictFixpoint(s: State, id: ToolId)
    requires Fixpoint(s, []) && id in s.entries && id in s.gates && s.gates[id].Evaluating? && !s.Settled(id)
    ensures Fixpoint(ResumeEvaluation(s, id), [])
  {
  }

  lemma LeaveKeeps(s: State, id: ToolId)
    requires Inv(s) && id in s.gates && !Gone(s.gates[id])
    ensures Inv(LeaveGate(s, id))
  {
    var c := Look(s, id);
    QuietMove(s, id, LeaveGate(s, id).gates[id]);
    SameFixpoint(s, LeaveGate(s, id));
  }

  lemma WakeEvaluationKeeps(s: State, id: ToolId)
    requires Inv(s) && Enabled(s, WakeEvaluation(id))
    ensures Inv(ResumeEvaluation(s, id))
  {
    if s.Settled(id) {
      SettledWake(s, id);
      SameFixpoint(s, ResumeEvaluation(s, id));
    } else {
      VerdictFixpoint(s, id);
      if s.gates[id].task.Aborted? {
        LeaveKeeps(s, id);
      } else if !s.gates[id].task.Decided? {
        FailureCore(s, id);
      } else if s.gates[id].task.verdict.ESCALATE? {
        EscalateCore(s, id);
      } else {
        VerdictCore(s, id);
      }
    }
  }

  lemma ExitKeeps(s: State, id: ToolId)
    requires Inv(s) && id in s.entries && s.gates[id].Parked? && s.entries[id].status != PENDING
    ensures Inv(s.(gates := s.gates[id := Exited(s.entries[id].status == APPROVED)]))
  {
    var c := Look(s, id);
    QuietMove(s, id, Exited(s.entries[id].status == APPROVED));
  }

  lemma WakeGateKeeps(s: State, id: ToolId)
    requires Inv(s) && Enabled(s, WakeGate(id))
    ensures Inv(ResumeGate(s, id))
  {
    if s.Resolved(id) {
      ExitKeeps(s, id);
    } else {
      var reason := Some(if s.closed then "agent closed before approval" else "approval unresolved");
      ResolveCore(s, id, false, reason, s.entries[id].remember);
      ResolveFixpoint(s, id, false, reason, s.entries[id].remember, []);
      ExitKeeps(Resolve(s, id, false, reason, s.entries[id].remember), id);
    }
  }

  ghost predicate StillPending(s: State, ids: seq<ToolId>) {
    && (forall i :: 0 <= i < |ids| ==> ids[i] in s.entries && s.entries[ids[i]].status == PENDING)
    && (forall i, j :: 0 <= i < j < |ids| ==> ids[i] != ids[j])
  }

  lemma ReleaseFirst(s: State, ids: seq<ToolId>)
    requires Core(s) && Fixpoint(s, ids) && StillPending(s, ids) && |ids| > 0
    ensures var t := Resolve(s, ids[0], true, RELEASED, false);
            Core(t) && Fixpoint(t, ids[1..]) && StillPending(t, ids[1..])
  {
    ResolveCore(s, ids[0], true, RELEASED, false);
    ResolveFixpoint(s, ids[0], true, RELEASED, false, ids);
    RestStillPending(s, ids);
  }

  lemma RestStillPending(s: State, ids: seq<ToolId>)
    requires StillPending(s, ids) && |ids| > 0
    ensures StillPending(Resolve(s, ids[0], true, RELEASED, false), ids[1..])
  {
    assert forall i :: 0 <= i < |ids| - 1 ==> ids[1..][i] == ids[i + 1];
  }

  /** The cascade keeps everything and leaves nothing pending that the policy now approves. */
  lemma {:induction false} CascadeKeeps(s: State, ids: seq<ToolId>)
    requires Core(s) && Fixpoint(s, ids) && StillPending(s, ids)
    ensures Inv(Cascade(s, ids))
    decreases |ids|
  {
    if ids != [] {
      var x := s.entries[ids[0]];
      if s.policy.AutoApproves(x.toolName, x.inherentlySafe) {
        ReleaseFirst(s, ids);
        CascadeKeeps(Resolve(s, ids[0], true, RELEASED, false), ids[1..]);
      } else {
        PassedOver(s, ids);
        CascadeKeeps(s, ids[1..]);
      }
    }
  }

  lemma PassedOver(s: State, ids: seq<ToolId>)
    requires Fixpoint(s, ids) && |ids| > 0 && ids[0] in s.entries
    requires !s.policy.AutoApproves(s.entries[ids[0]].toolName, s.entries[ids[0]].inherentlySafe)
    ensures Fixpoint(s, ids[1..])
  {
    assert ids == [ids[0]] + ids[1..];
  }

  lemma PendingDistinct(entries: map<ToolId, Entry>, order: seq<ToolId>)
    requires forall id <- order :: id in entries
    requires forall i, j :: 0 <= i < j < |order| ==> order[i] != order[j]
    ensures var ids := PendingIds(entries, order);
            forall i, j :: 0 <= i < j < |ids| ==> ids[i] != ids[j]
  {
    if order != [] {
      PendingDistinct(entries, order[1..]);
      PendingInOrder(entries, order[1..]);
    }
  }

  lemma SwapCore(s: State, p: Policy)
    requires Core(s)
    ensures Core(s.(policy := p))
  {
    var t := s.(policy := p);
    forall j | j in t.entries
      ensures CallAgrees(t, Scan(s.log).value, j)
    {
      assert CallAgrees(s, Scan(s.log).value, j);
    }
  }

  lemma SwapFixpoint(s: State, p: Policy)
    requires Registered(s)
    ensures Fixpoint(s.(policy := p), AllPending(s))
  {
    PendingInOrder(s.entries, s.order);
  }

  lemma AllStillPending(s: State, p: Policy)
    requires Registered(s)
    ensures StillPending(s.(policy := p), AllPending(s))
  {
    PendingInOrder(s.entries, s.order);
    PendingDistinct(s.entries, s.order);
    assert AllPending(s) == PendingIds(s.entries, s.order);
  }

  lemma ApplyPolicyKeeps(s: State, p: Policy)
    requires Core(s) && (Installable(s, p) || Fixpoint(s, []))
    ensures Inv(ApplyPolicy(s, p))
  {
    if Installable(s, p) {
      SwapCore(s, p);
      SwapFixpoint(s, p);
      AllStillPending(s, p);
      CascadeKeeps(s.(policy := p), AllPending(s));
    }
  }

  lemma DecideKeeps(s: State, id: ToolId, approved: bool, reason: Option<string>, remember: bool)
    requires Inv(s) && (s.policy.autoMode ==> s.hasEvaluator)
    ensures Inv(Decide(s, id, approved, reason, remember))
  {
    if ValidateDecision(s, id).None? {
      ResolveCore(s, id, approved, reason, remember);
      ResolveFixpoint(s, id, approved, reason, remember, []);
      var s1 := Resolve(s, id, approved, reason, remember);
      if approved && remember {
        ApplyPolicyKeeps(s1, s1.policy.WithToolAllowed(s.entries[id].toolName));
      }
    }
  }

  lemma CloseKeeps(s: State)
    requires Inv(s)
    ensures Inv(s.(closed := true))
  {
    forall id | id in s.entries
      ensures CallAgrees(s.(closed := true), Scan(s.log).value, id)
    {
      assert CallAgrees(s, Scan(s.log).value, id);
    }
  }

  lemma OtherKeeps(s: State, e: Envelope)
    requires Inv(s) && !IsApprovalEvent(e.event)
    ensures Inv(s.(log := s.log + [e]))
  {
    var t := s.(log := s.log + [e]);
    forall id | id in t.entries
      ensures CallAgrees(t, Scan(s.log).value, id)
    {
      assert CallAgrees(s, Scan(s.log).value, id);
    }
    Published(s, s.(log := s.log + [e]), e, Scan(s.log).value);
  }

  lemma EvaluatorEndsKeeps(s: State, id: ToolId, o: EvaluatorTask)
    requires Inv(s) && Enabled(s, EvaluatorEnds(id, o))
    ensures Inv(Apply(s, EvaluatorEnds(id, o)))
  {
    var c := Look(s, id);
    QuietMove(s, id, Evaluating(s.gates[id].evaluationId, o));
  }

  lemma CancelSettlesKeeps(s: State, id: ToolId)
    requires Inv(s) && Enabled(s, CancelSettles(id))
    ensures Inv(Apply(s, CancelSettles(id)))
  {
    var c := Look(s, id);
    SupersedeCore(s, id, s.gates[id].evaluationId, s.gates[id].reached);
  }

  /** The live policy never has auto mode on without an evaluator. */
  predicate Wired(s: State) {
    s.policy.autoMode ==> s.hasEvaluator
  }

  lemma {:induction false} CascadeWired(s: State, ids: seq<ToolId>)
    requires forall id <- ids :: id in s.entries
    ensures Cascade(s, ids).policy == s.policy && Cascade(s, ids).hasEvaluator == s.hasEvaluator
    decreases |ids|
  {
    if ids != [] {
      var x := s.entries[ids[0]];
      var s1 := if s.policy.AutoApproves(x.toolName, x.inherentlySafe) then Resolve(s, ids[0], true, RELEASED, false) else s;
      CascadeWired(s1, ids[1..]);
    }
  }

  lemma PolicyWired(s: State, p: Policy)
    requires Registered(s) && Wired(s)
    ensures Wired(ApplyPolicy(s, p))
  {
    if Installable(s, p) {
      CascadeWired(s.(policy := p), AllPending(s));
    }
  }

  lemma StepWired(s: State, step: Step)
    requires Registered(s) && Wired(s)
    ensures Wired(Apply(s, step))
  {
    match step
    case SetPolicy(p) => PolicyWired(s, p);
    case HumanDecision(id, approved, reason, remember) =>
      if ValidateDecision(s, id).None? {
        var s1 := Resolve(s, id, approved, reason, remember);
        PolicyWired(s1, s1.policy.WithToolAllowed(s.entries[id].toolName));
      }
    case _ =>
  }

  lemma StepKeeps(s: State, step: Step)
    requires Inv(s) && Wired(s)
    ensures Inv(Apply(s, step)) && Wired(Apply(s, step))
  {
    StepWired(s, step);
    if !Enabled(s, step) {
    } else if step.EvaluatorEnds? || step.WakeEvaluation? || step.CancelSettles? || step.CancelGate? || step.TearDownGate?
              || step.WakeGate? {
      GateStepKeeps(s, step);
    } else {
      AgentStepKeeps(s, step);
    }
  }

  /** The steps of one call's gate and its evaluator. */
  lemma GateStepKeeps(s: State, step: Step)
    requires Inv(s) && Enabled(s, step)
    requires step.EvaluatorEnds? || step.WakeEvaluation? || step.CancelSettles? || step.CancelGate? || step.TearDownGate?
             || step.WakeGate?
    ensures Inv(Apply(s, step))
  {
    match step
    case EvaluatorEnds(id, o) => EvaluatorEndsKeeps(s, id, o);
    case WakeEvaluation(id) => WakeEvaluationKeeps(s, id);
    case CancelSettles(id) => CancelSettlesKeeps(s, id);
    case CancelGate(id) => LeaveKeeps(s, id);
    case TearDownGate(id) => LeaveKeeps(s, id);
    case WakeGate(id) => WakeGateKeeps(s, id);
  }

  lemma AgentStepKeeps(s: State, step: Step)
    requires Inv(s) && Wired(s) && Enabled(s, step)
    requires step.RequestCall? || step.HumanDecision? || step.SetPolicy? || step.CloseAgent? || step.PublishOther?
    ensures Inv(Apply(s, step))
  {
    match step
    case RequestCall(id, x, governed) => RequestKeeps(s, id, x, governed);
    case HumanDecision(id, approved, reason, remember) => DecideKeeps(s, id, approved, reason, remember);
    case SetPolicy(p) => ApplyPolicyKeeps(s, p);
    case CloseAgent => CloseKeeps(s);
    case PublishOther(e) => OtherKeeps(s, e);
  }

  // ---- Reading a grammatical log by position ---------------------------------------------------------

  lemma {:induction false} PrefixReads(log: seq<Envelope>, i: nat)
    requires Scan(log).Some? && i <= |log|
    ensures Scan(log[..i]).Some?
    decreases |log|
  {
    if i == |log| {
      assert log[..i] == log;
    } else {
      PrefixReads(log[..|log| - 1], i);
      assert log[..|log| - 1][..i] == log[..i];
    }
  }

  function At(log: seq<Envelope>, i: nat): Reading
    requires Scan(log).Some? && i <= |log|
  {
    PrefixReads(log, i);
    Scan(log[..i]).value
  }

  lemma AtSteps(log: seq<Envelope>, i: nat)
    requires Scan(log).Some? && i < |log|
    ensures Accept(At(log, i), log[i]) == Some(At(log, i + 1))
  {
    PrefixReads(log, i + 1);
    PrefixReads(log, i);
    assert log[..i + 1][..i] == log[..i];
  }

  /** What is read of a call stays: its owner, its resolution, and that its evaluation closed. */
  ghost predicate Later(g: Reading, h: Reading) {
    forall id <- g.calls ::
      && id in h.calls
      && h.calls[id].turnId == g.calls[id].turnId && h.calls[id].turnNumber == g.calls[id].turnNumber
      && h.calls[id].messageId == g.calls[id].messageId && h.calls[id].toolName == g.calls[id].toolName
      && (g.calls[id].resolved.Some? ==> h.calls[id].resolved == g.calls[id].resolved)
      && (!g.calls[id].evaluation.NoEvaluation? && !g.calls[id].evaluation.OpenEval?
          ==> h.calls[id].evaluation == g.calls[id].evaluation)
  }

  lemma {:induction false} ReadingGrows(log: seq<Envelope>, i: nat, j: nat)
    requires Scan(log).Some? && i <= j <= |log|
    ensures Later(At(log, i), At(log, j))
    decreases j
  {
    if i < j {
      ReadingGrows(log, i, j - 1);
      AtSteps(log, j - 1);
      AcceptGrows(At(log, j - 1), log[j - 1]);
      LaterStill(At(log, i), At(log, j - 1), At(log, j));
    }
  }

  lemma AcceptGrows(g: Reading, e: Envelope)
    requires Accept(g, e).Some?
    ensures Later(g, Accept(g, e).value)
  {
    match e.event
    case ToolApprovalRequested(_, _) =>
    case ToolApprovalResolved(_, _, _, _, _) =>
    case _ =>
  }

  lemma LaterStill(f: Reading, g: Reading, h: Reading)
    requires Later(f, g) && Later(g, h)
    ensures Later(f, h)
  {
    forall id | id in f.calls
      ensures id in g.calls && id in h.calls
    {
    }
  }

  predicate Requests(log: seq<Envelope>, i: nat, id: ToolId) {
    i < |log| && log[i].event.ToolApprovalRequested? && log[i].event.toolId == id
  }

  predicate Resolves(log: seq<Envelope>, i: nat, id: ToolId) {
    i < |log| && log[i].event.ToolApprovalResolved? && log[i].event.toolId == id
  }

  lemma ResolvesOnce(log: seq<Envelope>, i: nat, j: nat, id: ToolId)
    requires Scan(log).Some? && Resolves(log, i, id) && Resolves(log, j, id)
    ensures i == j
  {
    AtSteps(log, i);
    AtSteps(log, j);
    if i < j {
      ReadingGrows(log, i + 1, j);
    } else if j < i {
      ReadingGrows(log, j + 1, i);
    }
  }

  lemma {:induction false} ResolvedSince(log: seq<Envelope>, n: nat, id: ToolId) returns (i: nat)
    requires Scan(log).Some? && n <= |log| && id in At(log, n).calls && At(log, n).calls[id].resolved.Some?
    ensures i < n && Resolves(log, i, id) && log[i].event.approved == At(log, n).calls[id].resolved.value
    decreases n
  {
    AtSteps(log, n - 1);
    if id in At(log, n - 1).calls && At(log, n - 1).calls[id].resolved.Some? {
      i := ResolvedSince(log, n - 1, id);
    } else {
      i := n - 1;
    }
  }

  /** A resolution is published for the turn and the message that asked, and after the request. */
  lemma ResolutionIsAttributed(log: seq<Envelope>, i: nat, j: nat, id: ToolId)
    requires Scan(log).Some? && Requests(log, i, id) && Resolves(log, j, id)
    ensures i < j && log[j].turnId == log[i].turnId && log[j].turnNumber == log[i].turnNumber
    ensures log[j].messageId == log[i].messageId && log[j].event.toolName == log[i].event.toolName
  {
    AtSteps(log, i);
    AtSteps(log, j);
    if j < i {
      ReadingGrows(log, j + 1, i);
    }
    ReadingGrows(log, i + 1, j);
  }

  /** A verdict that decides is followed at once by its own resolution. */
  lemma VerdictThenResolution(log: seq<Envelope>, i: nat)
    requires Scan(log).Some? && Scan(log).value.owed.None?
    requires i < |log| && log[i].event.EvaluationEnded? && !log[i].event.verdict.ESCALATE?
    ensures i + 1 < |log| && Resolves(log, i + 1, log[i].event.toolId)
    ensures log[i + 1].event.approved == log[i].event.verdict.APPROVE?
  {
    AtSteps(log, i);
    assert log[..|log|] == log;
    AtSteps(log, i + 1);
  }

  // ---- Over whole runs ----------------------------------------------------------------------------------

  ghost function Exec(s: State, steps: seq<Step>): (t: State)
    requires Inv(s) && Wired(s)
    ensures Inv(t) && Wired(t)
    decreases |steps|
  {
    if |steps| == 0 then s
    else
      StepKeeps(s, steps[0]);
      Exec(Apply(s, steps[0]), steps[1..])
  }

  lemma InitSound(policy: Policy, hasEvaluator: bool)
    requires policy.autoMode ==> hasEvaluator
    ensures Inv(Init(policy, hasEvaluator)) && Wired(Init(policy, hasEvaluator))
  {
  }

  /** What a run makes of a new agent; one with auto mode on and no evaluator does not start. */
  ghost function Reached(policy: Policy, hasEvaluator: bool, steps: seq<Step>): (t: State)
    requires policy.autoMode ==> hasEvaluator
    ensures Inv(t) && Wired(t)
  {
    InitSound(policy, hasEvaluator);
    Exec(Init(policy, hasEvaluator), steps)
  }

  /** A gate that exits dispatches exactly when its call's one published resolution approved. */
  lemma GateDispatchesAsPublished(s: State, id: ToolId) returns (i: nat)
    requires Inv(s) && id in s.gates && s.gates[id].Exited?
    ensures Resolves(s.log, i, id) && s.log[i].event.approved == s.gates[id].dispatched
    ensures forall j: nat :: Resolves(s.log, j, id) ==> j == i
  {
    var c := Look(s, id);
    assert s.log[..|s.log|] == s.log;
    i := ResolvedSince(s.log, |s.log|, id);
    forall j: nat | Resolves(s.log, j, id)
      ensures j == i
    {
      ResolvesOnce(s.log, j, i, id);
    }
  }

  /** A call still pending has no published resolution; a resolved one has exactly one, saying
      what its entry says. */
  lemma PublishedExactlyWhenResolved(s: State, id: ToolId)
    requires Inv(s) && id in s.entries
    ensures s.entries[id].status == PENDING <==> forall i: nat :: !Resolves(s.log, i, id)
    ensures forall i: nat :: Resolves(s.log, i, id) ==> (s.log[i].event.approved <==> s.entries[id].status == APPROVED)
  {
    EntrySays(s, id);
    assert s.log[..|s.log|] == s.log;
    if s.entries[id].status != PENDING {
      var i := ResolvedSince(s.log, |s.log|, id);
    }
    forall i: nat | Resolves(s.log, i, id)
      ensures s.entries[id].status != PENDING && (s.log[i].event.approved <==> s.entries[id].status == APPROVED)
    {
      ResolvedIsRead(s.log, i, id);
    }
  }

  lemma EntrySays(s: State, id: ToolId)
    requires Inv(s) && id in s.entries
    ensures Scan(s.log).Some? && id in Scan(s.log).value.calls
    ensures Scan(s.log).value.calls[id].resolved == Outcome(s.entries[id].status)
  {
    var c := Look(s, id);
  }

  lemma ResolvedIsRead(log: seq<Envelope>, i: nat, id: ToolId)
    requires Scan(log).Some? && Resolves(log, i, id)
    ensures id in Scan(log).value.calls && Scan(log).value.calls[id].resolved == Some(log[i].event.approved)
  {
    assert log[..|log|] == log;
    AtSteps(log, i);
    ReadingGrows(log, i + 1, |log|);
  }

  /** First decision wins: once a call left PENDING, no step of anyone changes its entry. */
  lemma SettledForGood(s: State, step: Step, id: ToolId)
    requires Registered(s) && s.Resolved(id)
    ensures id in Apply(s, step).entries && Apply(s, step).entries[id] == s.entries[id]
  {
    match step
    case SetPolicy(p) => PolicySpares(s, p, id);
    case HumanDecision(h, approved, reason, remember) => DecisionSpares(s, h, approved, reason, remember, id);
    case WakeEvaluation(w) => if Enabled(s, step) { EvaluationSpares(s, w, id); }
    case _ =>
  }

  /** Over any run from then on, whoever else decides, updates the policy, closes or evaluates. */
  lemma {:induction false} StaysSettled(s: State, steps: seq<Step>, id: ToolId)
    requires Inv(s) && Wired(s) && s.Resolved(id)
    ensures id in Exec(s, steps).entries && Exec(s, steps).entries[id] == s.entries[id]
    decreases |steps|
  {
    if |steps| > 0 {
      StepKeeps(s, steps[0]);
      SettledForGood(s, steps[0], id);
      StaysSettled(Apply(s, steps[0]), steps[1..], id);
    }
  }

  lemma EvaluationSpares(s: State, w: ToolId, id: ToolId)
    requires s.Resolved(id) && w in s.entries && w in s.gates && s.gates[w].Evaluating?
    ensures id in ResumeEvaluation(s, w).entries && ResumeEvaluation(s, w).entries[id] == s.entries[id]
  {
  }

  lemma DecisionSpares(s: State, h: ToolId, approved: bool, reason: Option<string>, remember: bool, id: ToolId)
    requires Registered(s) && s.Resolved(id)
    ensures id in Decide(s, h, approved, reason, remember).entries
    ensures Decide(s, h, approved, reason, remember).entries[id] == s.entries[id]
  {
    if ValidateDecision(s, h).None? {
      var s1 := Resolve(s, h, approved, reason, remember);
      assert s1.entries[id] == s.entries[id];
      if approved && remember {
        PolicySpares(s1, s1.policy.WithToolAllowed(s.entries[h].toolName), id);
      }
    }
  }

  lemma PolicySpares(s: State, p: Policy, id: ToolId)
    requires Registered(s) && s.Resolved(id)
    ensures id in ApplyPolicy(s, p).entries && ApplyPolicy(s, p).entries[id] == s.entries[id]
  {
    PendingInOrder(s.entries, s.order);
    if Installable(s, p) {
      CascadeSpares(s.(policy := p), AllPending(s), id);
    }
  }

  lemma {:induction false} CascadeSpares(s: State, ids: seq<ToolId>, id: ToolId)
    requires (forall j <- ids :: j in s.entries) && id in s.entries && id !in ids
    ensures id in Cascade(s, ids).entries && Cascade(s, ids).entries[id] == s.entries[id]
    decreases |ids|
  {
    if ids != [] {
      var x := s.entries[ids[0]];
      var s1 := if s.policy.AutoApproves(x.toolName, x.inherentlySafe) then Resolve(s, ids[0], true, RELEASED, false) else s;
      CascadeSpares(s1, ids[1..], id);
    }
  }

  // ---- Causal order of a cascade ---------------------------------------------------------------------------

  function ReleaseOf(id: ToolId, x: Entry): Envelope {
    Envelope(x.turnId, x.turnNumber, x.messageId, ToolApprovalResolved(id, x.toolName, true, RELEASED, false))
  }

  /** The releases a policy owes to the given calls, in their order. */
  function Releases(entries: map<ToolId, Entry>, ids: seq<ToolId>, p: Policy): seq<Envelope>
    requires forall id <- ids :: id in entries
  {
    if ids == [] then []
    else
      (if p.AutoApproves(entries[ids[0]].toolName, entries[ids[0]].inherentlySafe)
       then [ReleaseOf(ids[0], entries[ids[0]])] else [])
      + Releases(entries, ids[1..], p)
  }

  lemma {:induction false} CascadePublishes(s: State, ids: seq<ToolId>)
    requires StillPending(s, ids)
    ensures Cascade(s, ids).log == s.log + Releases(s.entries, ids, s.policy)
    decreases |ids|
  {
    if ids != [] {
      var x := s.entries[ids[0]];
      assert forall i :: 0 <= i < |ids| - 1 ==> ids[1..][i] == ids[i + 1];
      if s.policy.AutoApproves(x.toolName, x.inherentlySafe) {
        ReleasePublishes(s, ids);
        CascadePublishes(Resolve(s, ids[0], true, RELEASED, false), ids[1..]);
      } else {
        CascadePublishes(s, ids[1..]);
      }
    }
  }

  lemma FirstReleased(entries: map<ToolId, Entry>, ids: seq<ToolId>, p: Policy)
    requires (forall id <- ids :: id in entries) && ids != []
    requires p.AutoApproves(entries[ids[0]].toolName, entries[ids[0]].inherentlySafe)
    ensures forall id <- ids[1..] :: id in entries
    ensures Releases(entries, ids, p) == [ReleaseOf(ids[0], entries[ids[0]])] + Releases(entries, ids[1..], p)
  {
  }

  lemma OthersRelease(s: State, ids: seq<ToolId>)
    requires StillPending(s, ids) && ids != []
    ensures var s1 := Resolve(s, ids[0], true, RELEASED, false);
            && (forall id <- ids[1..] :: id in s.entries && id in s1.entries)
            && Releases(s1.entries, ids[1..], s.policy) == Releases(s.entries, ids[1..], s.policy)
  {
    var s1 := Resolve(s, ids[0], true, RELEASED, false);
    ResolveReleases(s, ids[0]);
    assert forall i :: 0 <= i < |ids| - 1 ==> ids[1..][i] == ids[i + 1];
    SameReleases(s.entries, s1.entries, ids[1..], s.policy);
  }

  /** The first release is published and changes nothing about the others. */
  lemma ReleasePublishes(s: State, ids: seq<ToolId>)
    requires StillPending(s, ids) && ids != []
    requires s.policy.AutoApproves(s.entries[ids[0]].toolName, s.entries[ids[0]].inherentlySafe)
    ensures var s1 := Resolve(s, ids[0], true, RELEASED, false);
            StillPending(s1, ids[1..]) && s1.policy == s.policy
            && s1.log + Releases(s1.entries, ids[1..], s.policy) == s.log + Releases(s.entries, ids, s.policy)
  {
    RestStillPending(s, ids);
    ResolveReleases(s, ids[0]);
    OthersRelease(s, ids);
    FirstReleased(s.entries, ids, s.policy);
    Regroup(s.log, [ReleaseOf(ids[0], s.entries[ids[0]])], Releases(s.entries, ids[1..], s.policy));
  }

  lemma ResolveReleases(s: State, id: ToolId)
    requires id in s.entries
    ensures var s1 := Resolve(s, id, true, RELEASED, false);
            && s1.log == s.log + [ReleaseOf(id, s.entries[id])] && s1.policy == s.policy
            && (forall j :: j in s1.entries <==> j in s.entries)
            && (forall j <- s.entries :: j != id ==> s1.entries[j] == s.entries[j])
  {
  }

  lemma {:induction false} SameReleases(m: map<ToolId, Entry>, m': map<ToolId, Entry>, ids: seq<ToolId>, p: Policy)
    requires forall id <- ids :: id in m && id in m' && m[id] == m'[id]
    ensures Releases(m, ids, p) == Releases(m', ids, p)
    decreases |ids|
  {
    if ids != [] {
      SameReleases(m, m', ids[1..], p);
    }
  }

  /** Approve-and-remember publishes its own resolution first, then releases, in registration
      order, exactly the other pending calls the grown policy approves. */
  lemma CauseBeforeEffects(s: State, id: ToolId, reason: Option<string>)
    requires Registered(s) && Wired(s) && ValidateDecision(s, id).None?
    ensures var t := Decide(s, id, true, reason, true);
            var s1 := Resolve(s, id, true, reason, true);
            var x := s.entries[id];
            && t.policy == s.policy.WithToolAllowed(x.toolName)
            && t.log == s.log
                        + [Envelope(x.turnId, x.turnNumber, x.messageId,
                                    ToolApprovalResolved(id, x.toolName, true, reason, true))]
                        + Releases(s1.entries, AllPending(s1), t.policy)
  {
    var s1 := Resolve(s, id, true, reason, true);
    var p := s1.policy.WithToolAllowed(s.entries[id].toolName);
    AllStillPending(s1, p);
    CascadePublishes(s1.(policy := p), AllPending(s1));
    CascadeWired(s1.(policy := p), AllPending(s1));
  }

  /** No PENDING call is one the live policy auto-approves, in any reachable state. */
  lemma PolicyFixpoint(policy: Policy, hasEvaluator: bool, steps: seq<Step>)
    requires policy.autoMode ==> hasEvaluator
    ensures var t := Reached(policy, hasEvaluator, steps);
            forall id <- t.entries ::
              t.entries[id].status == PENDING ==> !t.policy.AutoApproves(t.entries[id].toolName, t.entries[id].inherentlySafe)
  {
    var t := Reached(policy, hasEvaluator, steps);
    assert Fixpoint(t, []);
  }

  // ---- The evaluation bracket ---------------------------------------------------------------------------------

  predicate Supersedes(log: seq<Envelope>, i: nat, id: ToolId) {
    i < |log| && log[i].event.EvaluationSuperseded? && log[i].event.toolId == id
  }

  /** An evaluation is superseded only when the call was already settled or the agent closed. */
  lemma SupersededOnlyWhenSettled(s: State, i: nat, id: ToolId)
    requires Inv(s) && Supersedes(s.log, i, id)
    ensures s.closed || exists j: nat :: j < i && Resolves(s.log, j, id)
  {
    AtSteps(s.log, i);
    ReadingGrows(s.log, i + 1, |s.log|);
    assert s.log[..|s.log|] == s.log;
    assert CallAgrees(s, Scan(s.log).value, id);
    if !s.closed {
      var j := ResolvedSince(s.log, i, id);
    }
  }

  predicate Opens(log: seq<Envelope>, i: nat, id: ToolId) {
    i < |log| && log[i].event.EvaluationStarted? && log[i].event.toolId == id
  }

  predicate IsClosing(e: Event) {
    e.EvaluationEnded? || e.EvaluationSuperseded? || e.EvaluationError?
  }

  predicate Closes(log: seq<Envelope>, i: nat, id: ToolId) {
    i < |log| && IsClosing(log[i].event) && log[i].event.toolId == id
  }

  lemma {:induction false} OpenedSince(log: seq<Envelope>, n: nat, id: ToolId) returns (b: nat)
    requires Scan(log).Some? && n <= |log| && id in At(log, n).calls && At(log, n).calls[id].evaluation.OpenEval?
    ensures b < n && Opens(log, b, id) && log[b].event.evaluationId == At(log, n).calls[id].evaluation.id
    decreases n
  {
    AtSteps(log, n - 1);
    if id in At(log, n - 1).calls && At(log, n - 1).calls[id].evaluation.OpenEval? {
      b := OpenedSince(log, n - 1, id);
    } else {
      b := n - 1;
    }
  }

  lemma {:induction false} ClosedSince(log: seq<Envelope>, n: nat, id: ToolId) returns (c: nat)
    requires Scan(log).Some? && n <= |log| && id in At(log, n).calls
    requires !At(log, n).calls[id].evaluation.OpenEval? && !At(log, n).calls[id].evaluation.NoEvaluation?
    ensures c < n && Closes(log, c, id)
    decreases n
  {
    AtSteps(log, n - 1);
    if id in At(log, n - 1).calls && !At(log, n - 1).calls[id].evaluation.OpenEval?
       && !At(log, n - 1).calls[id].evaluation.NoEvaluation? {
      c := ClosedSince(log, n - 1, id);
    } else {
      c := n - 1;
    }
  }

  /** An evaluation, once opened, never reads as not begun again. */
  lemma {:induction false} BegunForGood(log: seq<Envelope>, i: nat, n: nat, id: ToolId)
    requires Scan(log).Some? && i <= n <= |log| && id in At(log, i).calls && !At(log, i).calls[id].evaluation.NoEvaluation?
    ensures id in At(log, n).calls && !At(log, n).calls[id].evaluation.NoEvaluation?
    decreases n
  {
    if i < n {
      BegunForGood(log, i, n - 1, id);
      AtSteps(log, n - 1);
    }
  }

  /** The life of an evaluation: what closes it is its only close, and follows its only start, of
      the same id. */
  lemma EvaluationLife(log: seq<Envelope>, c: nat, id: ToolId) returns (b: nat)
    requires Scan(log).Some? && Closes(log, c, id)
    ensures b < c && Opens(log, b, id) && log[b].event.evaluationId == log[c].event.evaluationId
    ensures forall x :: Opens(log, x, id) ==> x == b
    ensures forall x :: Closes(log, x, id) ==> x == c
  {
    AtSteps(log, c);
    b := OpenedSince(log, c, id);
    forall x | Opens(log, x, id) ensures x == b { OpensOnce(log, x, b, id); }
    forall x | Closes(log, x, id) ensures x == c { ClosesOnce(log, x, c, id); }
  }

  lemma OpensOnce(log: seq<Envelope>, x: nat, y: nat, id: ToolId)
    requires Scan(log).Some? && Opens(log, x, id) && Opens(log, y, id)
    ensures x == y
  {
    AtSteps(log, x);
    AtSteps(log, y);
    if x < y {
      BegunForGood(log, x + 1, y, id);
    } else if y < x {
      BegunForGood(log, y + 1, x, id);
    }
  }

  lemma ClosesOnce(log: seq<Envelope>, x: nat, y: nat, id: ToolId)
    requires Scan(log).Some? && Closes(log, x, id) && Closes(log, y, id)
    ensures x == y
  {
    if x < y {
      NoSecondClose(log, x, y, id);
    } else if y < x {
      NoSecondClose(log, y, x, id);
    }
  }

  lemma NoSecondClose(log: seq<Envelope>, x: nat, y: nat, id: ToolId)
    requires Scan(log).Some? && Closes(log, x, id) && x < y < |log|
    ensures !Closes(log, y, id)
  {
    AtSteps(log, x);
    ClosingCloses(At(log, x), log[x]);
    ReadingGrows(log, x + 1, y);
    AtSteps(log, y);
    if Closes(log, y, id) {
      ClosingCloses(At(log, y), log[y]);
    }
  }

  /** A closing event is accepted only for an open evaluation, which is not open afterwards. */
  lemma ClosingCloses(g: Reading, e: Envelope)
    requires IsClosing(e.event) && Accept(g, e).Some?
    ensures e.event.toolId in g.calls && g.calls[e.event.toolId].evaluation.OpenEval?
    ensures var h := Accept(g, e).value;
            && e.event.toolId in h.calls
            && !h.calls[e.event.toolId].evaluation.OpenEval? && !h.calls[e.event.toolId].evaluation.NoEvaluation?
  {
  }

  /** A gate that dispatched or denied has its evaluation, if one was opened, closed by exactly one
      of ended, superseded and error, after its start. */
  lemma EvaluationClosedAtExit(s: State, id: ToolId, b: nat) returns (c: nat)
    requires Inv(s) && id in s.gates && s.gates[id].Exited? && Opens(s.log, b, id)
    ensures b < c && Closes(s.log, c, id) && s.log[c].event.evaluationId == s.log[b].event.evaluationId
    ensures forall x :: Closes(s.log, x, id) ==> x == c
  {
    var story := Look(s, id);
    assert s.log[..|s.log|] == s.log;
    AtSteps(s.log, b);
    BegunForGood(s.log, b + 1, |s.log|, id);
    c := ClosedSince(s.log, |s.log|, id);
    var b' := EvaluationLife(s.log, c, id);
  }

  // ---- Gates that leave early ------------------------------------------------------------------------------------

  /** The steps by which a gate is gone without having dispatched or denied: its own task is
      cancelled or torn down, it looks at a malformed result after the call was settled, or at
      an evaluator that was cancelled while the call was not. */
  predicate LeavesBy(s: State, step: Step, id: ToolId) {
    Enabled(s, step) && id in s.gates
    && match step
       case CancelGate(w) => w == id
       case TearDownGate(w) => w == id
       case WakeEvaluation(w) =>
         w == id && if s.Settled(id) then s.gates[id].task.Malformed? else s.gates[id].task.Aborted?
       case _ => false
  }

  /** Of these, the ones at an evaluation that is still open. */
  predicate LeavesOpenBy(s: State, step: Step, id: ToolId) {
    LeavesBy(s, step, id) && !s.gates[id].Parked?
  }

  /** What a step does to a gate it does not name: nothing. */
  lemma GatesOf(s: State, step: Step, id: ToolId)
    requires Registered(s) && id in s.gates
    ensures id in Apply(s, step).gates
    ensures Apply(s, step).gates[id] == s.gates[id] || (Enabled(s, step) && Names(step, id))
  {
    match step
    case SetPolicy(p) => PolicyGates(s, p);
    case HumanDecision(h, approved, reason, remember) => DecisionGates(s, h, approved, reason, remember);
    case WakeEvaluation(w) => if Enabled(s, step) { EvaluationGates(s, w, id); }
    case _ =>
  }

  predicate Names(step: Step, id: ToolId) {
    match step
    case EvaluatorEnds(w, _) => w == id
    case WakeEvaluation(w) => w == id
    case CancelSettles(w) => w == id
    case CancelGate(w) => w == id
    case TearDownGate(w) => w == id
    case WakeGate(w) => w == id
    case _ => false
  }

  lemma EvaluationGates(s: State, w: ToolId, id: ToolId)
    requires w in s.entries && w in s.gates && s.gates[w].Evaluating? && id in s.gates
    ensures id in ResumeEvaluation(s, w).gates
    ensures id != w ==> ResumeEvaluation(s, w).gates[id] == s.gates[id]
  {
  }

  lemma PolicyGates(s: State, p: Policy)
    requires Registered(s)
    ensures ApplyPolicy(s, p).gates == s.gates
  {
    if Installable(s, p) {
      CascadeGates(s.(policy := p), AllPending(s));
    }
  }

  lemma {:induction false} CascadeGates(s: State, ids: seq<ToolId>)
    requires forall j <- ids :: j in s.entries
    ensures Cascade(s, ids).gates == s.gates
    decreases |ids|
  {
    if ids != [] {
      var x := s.entries[ids[0]];
      var s1 := if s.policy.AutoApproves(x.toolName, x.inherentlySafe) then Resolve(s, ids[0], true, RELEASED, false) else s;
      CascadeGates(s1, ids[1..]);
    }
  }

  lemma DecisionGates(s: State, h: ToolId, approved: bool, reason: Option<string>, remember: bool)
    requires Registered(s)
    ensures Decide(s, h, approved, reason, remember).gates == s.gates
  {
    if ValidateDecision(s, h).None? {
      var s1 := Resolve(s, h, approved, reason, remember);
      PolicyGates(s1, s1.policy.WithToolAllowed(s.entries[h].toolName));
    }
  }

  predicate HasLeft(s: State, id: ToolId) {
    id in s.gates && s.gates[id].Left?
  }

  predicate HasLeftOpen(s: State, id: ToolId) {
    HasLeft(s, id) && s.gates[id].evaluation.Some?
  }

  /** Waking at the evaluator leaves the gate in exactly two cases. */
  lemma WakingLeaves(s: State, id: ToolId)
    requires Registered(s) && Enabled(s, WakeEvaluation(id))
    ensures HasLeft(ResumeEvaluation(s, id), id) <==> LeavesBy(s, WakeEvaluation(id), id)
    ensures HasLeftOpen(ResumeEvaluation(s, id), id) <==> LeavesBy(s, WakeEvaluation(id), id)
  {
  }

  lemma NewGate(s: State, id: ToolId, x: Entry, governed: bool)
    requires id !in s.gates
    ensures !HasLeft(Request(s, id, x, governed), id)
    ensures forall j :: j != id ==> (j in Request(s, id, x, governed).gates <==> j in s.gates)
  {
  }

  lemma LeftByStep(s: State, step: Step, id: ToolId)
    requires Registered(s)
    ensures HasLeft(Apply(s, step), id) <==> HasLeft(s, id) || LeavesBy(s, step, id)
    ensures HasLeftOpen(Apply(s, step), id) <==> HasLeftOpen(s, id) || LeavesOpenBy(s, step, id)
  {
    if id in s.gates {
      GatesOf(s, step, id);
      if step == WakeEvaluation(id) && Enabled(s, step) {
        WakingLeaves(s, id);
      }
    } else {
      NoGateYet(s, step, id);
    }
  }

  lemma NoGateYet(s: State, step: Step, id: ToolId)
    requires Registered(s) && id !in s.gates
    ensures !HasLeft(Apply(s, step), id)
  {
    match step
    case RequestCall(w, x, governed) => if Enabled(s, step) { NewGate(s, w, x, governed); }
    case SetPolicy(p) => PolicyGates(s, p);
    case HumanDecision(h, approved, reason, remember) => DecisionGates(s, h, approved, reason, remember);
    case _ =>
  }

  /** Some step of the run made the gate leave; and some did so at an open evaluation. */
  ghost predicate Leaves(s: State, steps: seq<Step>, id: ToolId)
    requires Inv(s) && Wired(s)
    decreases |steps|
  {
    |steps| > 0 && (StepKeeps(s, steps[0]); LeavesBy(s, steps[0], id) || Leaves(Apply(s, steps[0]), steps[1..], id))
  }

  ghost predicate LeavesOpen(s: State, steps: seq<Step>, id: ToolId)
    requires Inv(s) && Wired(s)
    decreases |steps|
  {
    |steps| > 0 && (StepKeeps(s, steps[0]); LeavesOpenBy(s, steps[0], id) || LeavesOpen(Apply(s, steps[0]), steps[1..], id))
  }

  ghost predicate EverLeaves(policy: Policy, hasEvaluator: bool, steps: seq<Step>, id: ToolId)
    requires policy.autoMode ==> hasEvaluator
  {
    InitSound(policy, hasEvaluator);
    Leaves(Init(policy, hasEvaluator), steps, id)
  }

  ghost predicate EverLeavesOpen(policy: Policy, hasEvaluator: bool, steps: seq<Step>, id: ToolId)
    requires policy.autoMode ==> hasEvaluator
  {
    InitSound(policy, hasEvaluator);
    LeavesOpen(Init(policy, hasEvaluator), steps, id)
  }

  lemma {:induction false} LeftByRun(s: State, steps: seq<Step>, id: ToolId)
    requires Inv(s) && Wired(s)
    ensures HasLeft(Exec(s, steps), id) <==> HasLeft(s, id) || Leaves(s, steps, id)
    ensures HasLeftOpen(Exec(s, steps), id) <==> HasLeftOpen(s, id) || LeavesOpen(s, steps, id)
    decreases |steps|
  {
    if |steps| > 0 {
      StepKeeps(s, steps[0]);
      LeftByStep(s, steps[0], id);
      LeftByRun(Apply(s, steps[0]), steps[1..], id);
    }
  }

  /** A bracket is open exactly while its gate is at the evaluator, or left there. */
  lemma OpenIffInGate(s: State, id: ToolId)
    requires Core(s) && id in s.entries
    ensures id in s.gates && id in Scan(s.log).value.calls
    ensures Scan(s.log).value.calls[id].evaluation.OpenEval?
            <==> s.gates[id].Evaluating? || s.gates[id].Cancelling? || HasLeftOpen(s, id)
  {
    var c := Look(s, id);
  }

  /** Over whole runs: the evaluation of a gate that is gone is closed if and only if no step of the
      run made the gate leave while the evaluation was open. */
  lemma ClosedIffNeverLeftOpen(policy: Policy, hasEvaluator: bool, steps: seq<Step>, id: ToolId)
    requires policy.autoMode ==> hasEvaluator
    requires id in Reached(policy, hasEvaluator, steps).gates && Gone(Reached(policy, hasEvaluator, steps).gates[id])
    ensures var s := Reached(policy, hasEvaluator, steps);
            && Scan(s.log).Some? && id in Scan(s.log).value.calls
            && (!Scan(s.log).value.calls[id].evaluation.OpenEval?
                <==> !EverLeavesOpen(policy, hasEvaluator, steps, id))
  {
    InitSound(policy, hasEvaluator);
    var s := Reached(policy, hasEvaluator, steps);
    LeftByRun(Init(policy, hasEvaluator), steps, id);
    OpenIffInGate(s, id);
  }

  /** Over whole runs: a gate that is gone dispatched its call if and only if the call's resolution
      was published as approved and no step made the gate leave. A decision for a call whose
      gate has left is published all the same, and dispatches nothing. */
  lemma DispatchedIff(policy: Policy, hasEvaluator: bool, steps: seq<Step>, id: ToolId)
    requires policy.autoMode ==> hasEvaluator
    requires id in Reached(policy, hasEvaluator, steps).gates && Gone(Reached(policy, hasEvaluator, steps).gates[id])
    ensures var s := Reached(policy, hasEvaluator, steps);
            s.gates[id] == Exited(true)
            <==> (exists i: nat :: ApprovedAt(s.log, i, id)) && !EverLeaves(policy, hasEvaluator, steps, id)
  {
    InitSound(policy, hasEvaluator);
    var s := Reached(policy, hasEvaluator, steps);
    LeftByRun(Init(policy, hasEvaluator), steps, id);
    var c := Look(s, id);
    PublishedExactlyWhenResolved(s, id);
    if s.gates[id] == Exited(true) {
      var i := GateDispatchesAsPublished(s, id);
      assert ApprovedAt(s.log, i, id);
    }
    if i: nat :| ApprovedAt(s.log, i, id) {
      assert Resolves(s.log, i, id);
    }
  }

  predicate ApprovedAt(log: seq<Envelope>, i: nat, id: ToolId) {
    Resolves(log, i, id) && log[i].event.approved
  }

  /** A decision for a call whose gate has left is published and dispatches nothing: in any state
      with a call at the human gate its task can be cancelled, and a person approve it after. */
  lemma DecidedAfterLeaving(s: State, id: ToolId, reason: Option<string>)
    requires Inv(s) && id in s.entries && s.entries[id].status == PENDING && s.gates[id].Parked?
    ensures Enabled(s, CancelGate(id)) && Registered(s)
    ensures var t := Apply(s, CancelGate(id));
            && Inv(t) && ValidateDecision(t, id).None?
            && var u := Decide(t, id, true, reason, false);
               && ApprovedAt(u.log, |s.log|, id) && id in u.gates && u.gates[id] == Left(None)
  {
    LeaveKeeps(s, id);
  }

  /** From a new agent on: a call that its policy does not approve is requested, cancelled at the
      human gate, and approved by a person. */
  lemma ApprovedAfterLeaving(policy: Policy, hasEvaluator: bool, id: ToolId, x: Entry) returns (steps: seq<Step>)
    requires (policy.autoMode ==> hasEvaluator) && !policy.AutoApproves(x.toolName, x.inherentlySafe)
    requires x.status == PENDING && x.reason.None? && !x.remember
    ensures var s := Reached(policy, hasEvaluator, steps);
            ApprovedAt(s.log, 1, id) && id in s.gates && s.gates[id] == Left(None)
  {
    steps := [RequestCall(id, x, false), CancelGate(id), HumanDecision(id, true, None, false)];
    InitSound(policy, hasEvaluator);
    var s := Init(policy, hasEvaluator);
    StepKeeps(s, steps[0]);
    FirstRequest(s, id, x);
    ThreeSteps(s, steps);
    LeftThenApproved(Request(s, id, x, false), id);
  }

  lemma FirstRequest(s: State, id: ToolId, x: Entry)
    requires Registered(s) && s == Init(s.policy, s.hasEvaluator) && !s.policy.AutoApproves(x.toolName, x.inherentlySafe)
    requires x.status == PENDING && x.reason.None? && !x.remember
    ensures Enabled(s, RequestCall(id, x, false))
    ensures var t := Request(s, id, x, false);
            id in t.entries && t.entries[id].status == PENDING && id in t.gates && t.gates[id].Parked? && |t.log| == 1
  {
  }

  lemma LeftThenApproved(s: State, id: ToolId)
    requires Inv(s) && id in s.entries && s.entries[id].status == PENDING && id in s.gates && s.gates[id].Parked?
    ensures Registered(s) && Registered(Apply(s, CancelGate(id)))
    ensures var u := Apply(Apply(s, CancelGate(id)), HumanDecision(id, true, None, false));
            ApprovedAt(u.log, |s.log|, id) && id in u.gates && u.gates[id] == Left(None)
  {
    DecidedAfterLeaving(s, id, None);
  }

  lemma ThreeSteps(s: State, steps: seq<Step>)
    requires Inv(s) && Wired(s) && |steps| == 3
    ensures Registered(s) && Registered(Apply(s, steps[0])) && Registered(Apply(Apply(s, steps[0]), steps[1]))
    ensures Exec(s, steps) == Apply(Apply(Apply(s, steps[0]), steps[1]), steps[2])
  {
    StepKeeps(s, steps[0]);
    var s1 := Apply(s, steps[0]);
    StepKeeps(s1, steps[1]);
    var s2 := Apply(s1, steps[1]);
    StepKeeps(s2, steps[2]);
    assert Exec(s, steps) == Exec(s1, steps[1..]);
    assert Exec(s1, steps[1..]) == Exec(s2, steps[1..][1..]);
    assert Exec(s2, steps[1..][1..]) == Exec(Apply(s2, steps[2]), steps[1..][1..][1..]);
  }

  /** An evaluator's failure never decides: whatever it was, no entry changes, and the call is left
      to the human gate or the gate is left. */
  lemma FailureNeverDecides(s: State, id: ToolId)
    requires Inv(s) && Enabled(s, WakeEvaluation(id)) && !s.gates[id].task.Decided?
    ensures ResumeEvaluation(s, id).entries == s.entries
    ensures !s.Settled(id) && !s.gates[id].task.Aborted? ==>
              var t := ResumeEvaluation(s, id);
              t.gates[id] == Parked && |t.log| == |s.log| + 1
              && t.log[|s.log|].event == EvaluationError(id, s.gates[id].evaluationId)
  {
    EntriesOfWake(s, id);
  }

  lemma EntriesOfWake(s: State, id: ToolId)
    requires id in s.entries && id in s.gates && s.gates[id].Evaluating? && (s.Settled(id) || !s.gates[id].task.Decided?)
    ensures ResumeEvaluation(s, id).entries == s.entries
  {
  }

  /** Ids must be fresh: registering one again overwrites its entry, so a settled call is
      settled afterwards if and only if it is a different one. */
  lemma RegisterKeepsSettledIff(s: State, id: ToolId, x: Entry, settled: ToolId)
    requires s.Resolved(settled) && x.status == PENDING
    ensures Register(s, id, x).Resolved(settled) <==> id != settled
  {
  }
}
