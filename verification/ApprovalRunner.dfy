/** The runner's approval registry: the fields every gate, decision and policy update writes
    in place. Each method is one step of ApprovalMachine. */
module ApprovalRunner {
  import opened Protocol
  import opened ApprovalMachine
  import opened ApprovalTheorems
  import E = ApprovalEffects

  datatype Denial = Dispatch | ToolApprovalDenied(reason: Option<string>)

  class ApprovalRegistry {
    const hasEvaluator: bool
    var approvalPolicy: Policy
    var approvals: map<ToolId, Entry>
    var order: seq<ToolId>
    var gates: map<ToolId, Gate>
    var closed: bool
    var nextUuid: nat
    var events: seq<Envelope>

    ghost function View(): State
      reads this
    {
      State(approvalPolicy, hasEvaluator, approvals, order, gates, closed, nextUuid, events)
    }

    ghost predicate Valid()
      reads this
    {
      Inv(View()) && Wired(View())
    }

    constructor (policy: Policy, hasEvaluator: bool)
      requires policy.autoMode ==> hasEvaluator
      ensures Valid() && View() == Init(policy, hasEvaluator)
    {
      this.hasEvaluator := hasEvaluator;
      approvalPolicy, approvals, order, gates, closed, nextUuid, events := policy, map[], [], map[], false, 0, [];
    }

    method Pub(id: ToolId, event: Event)
      requires id in approvals
      modifies this`events
      ensures View() == Publish(old(View()), id, event)
    {
      var entry := approvals[id];
      events := events + [Envelope(entry.turnId, entry.turnNumber, entry.messageId, event)];
    }

    /** The gate of one tool call, up to its first await. `true`: dispatch without a gate. */
    method OpenGate(id: ToolId, entry: Entry, governed: bool) returns (ungated: bool)
      requires Valid() && Enabled(View(), RequestCall(id, entry, governed))
      modifies this
      ensures Valid() && View() == Request(old(View()), id, entry, governed)
      ensures ungated <==> old(approvalPolicy).AutoApproves(entry.toolName, entry.inherentlySafe)
    {
      ghost var s := View();
      RequestKeeps(s, id, entry, governed);
      if approvalPolicy.AutoApproves(entry.toolName, entry.inherentlySafe) {
        return true;
      }
      RegisterAndPublish(id, entry, governed);
      ungated := false;
    }

    method RegisterAndPublish(id: ToolId, entry: Entry, governed: bool)
      requires id !in approvals && !approvalPolicy.AutoApproves(entry.toolName, entry.inherentlySafe)
      modifies this
      ensures View() == Request(old(View()), id, entry, governed)
    {
      approvals, order := approvals[id := entry], order + [id];
      Pub(id, ToolApprovalRequested(id, entry.toolName));
      if hasEvaluator && approvalPolicy.autoMode && governed {
        gates := gates[id := Evaluating(nextUuid, Running)];
        Pub(id, EvaluationStarted(id, nextUuid));
        nextUuid := nextUuid + 1;
      } else {
        gates := gates[id := Parked];
      }
    }

    method ResolveAndPublish(id: ToolId, approved: bool, reason: Option<string>, remember: bool)
      requires id in approvals
      modifies this`approvals, this`events
      ensures View() == Resolve(old(View()), id, approved, reason, remember)
    {
      var entry := approvals[id];
      approvals := approvals[id := entry.(status := if approved then APPROVED else DENIED, reason := reason,
                                          remember := remember)];
      Pub(id, ToolApprovalResolved(id, entry.toolName, approved, reason, remember));
    }

    method PendingEntries() returns (ids: seq<ToolId>)
      requires forall id <- order :: id in approvals
      ensures ids == PendingIds(approvals, order)
      ensures forall id :: id in ids <==> id in order && approvals[id].status == PENDING
      ensures E.InOrder(order, ids)
    {
      PendingInOrder(approvals, order);
      E.PendingInOrderOf(approvals, order);
      ids := [];
      var i := 0;
      while i < |order|
        invariant 0 <= i <= |order|
        invariant ids + PendingIds(approvals, order[i..]) == PendingIds(approvals, order)
      {
        assert order[i..][1..] == order[i + 1..];
        if approvals[order[i]].status == PENDING {
          ids := ids + [order[i]];
        }
        i := i + 1;
      }
    }

    /** Installs a policy and releases every pending call it now auto-approves. */
    method ApplyPolicyUpdate(policy: Policy) returns (installed: bool)
      requires forall id <- order :: id in approvals
      modifies this`approvalPolicy, this`approvals, this`events
      ensures View() == ApplyPolicy(old(View()), policy)
      ensures installed <==> Installable(old(View()), policy)
    {
      if policy.autoMode && !hasEvaluator {
        return false;
      }
      var ids := PendingEntries();
      PendingInOrder(approvals, order);
      approvalPolicy := policy;
      ReleaseEach(ids);
      installed := true;
    }

    method ReleaseEach(ids: seq<ToolId>)
      requires forall id <- ids :: id in approvals
      modifies this`approvals, this`events
      ensures View() == Cascade(old(View()), ids)
    {
      var i := 0;
      while i < |ids|
        invariant 0 <= i <= |ids|
        invariant forall id <- ids :: id in approvals
        invariant Cascade(View(), ids[i..]) == Cascade(old(View()), ids)
      {
        assert ids[i..][1..] == ids[i + 1..];
        var entry := approvals[ids[i]];
        if approvalPolicy.AutoApproves(entry.toolName, entry.inherentlySafe) {
          ResolveAndPublish(ids[i], true, RELEASED, false);
        }
        i := i + 1;
      }
      assert ids[i..] == [];
    }

    method SetApprovalPolicy(policy: Policy) returns (installed: bool)
      requires Valid()
      modifies this
      ensures Valid() && View() == ApplyPolicy(old(View()), policy)
      ensures installed <==> Installable(old(View()), policy)
    {
      ghost var s := View();
      installed := ApplyPolicyUpdate(policy);
      ApplyPolicyKeeps(s, policy);
      PolicyWired(s, policy);
    }

    lemma DecisionTold(s: State, id: ToolId, approved: bool, reason: Option<string>, remember: bool)
      requires Registered(s) && Wired(s) && id in s.entries && s.entries[id].status == PENDING
      ensures var t := Decide(s, id, approved, reason, remember);
              var x := s.entries[id];
              && id in t.entries
              && t.entries[id] == x.(status := if approved then APPROVED else DENIED, reason := reason, remember := remember)
              && |t.log| > |s.log|
              && t.log[|s.log|] == Envelope(x.turnId, x.turnNumber, x.messageId,
                                            ToolApprovalResolved(id, x.toolName, approved, reason, remember))
              && (!(approved && remember) ==> t.policy == s.policy && |t.log| == |s.log| + 1)
    {
      if approved && remember {
        var released := E.RememberedDecision(s, id, reason);
      } else {
        E.DecisionSays(s, id, approved, reason, remember);
      }
    }

    /** A human decision; rejected, with nothing changed, for an unknown or settled call. */
    method HandleToolApproval(id: ToolId, approved: bool, reason: Option<string>, remember: bool)
      returns (error: Option<ApprovalRejection>)
      requires Valid()
      modifies this
      ensures Valid() && View() == Decide(old(View()), id, approved, reason, remember)
      ensures error == ValidateDecision(old(View()), id)
      ensures error.None? <==> id in old(approvals) && old(approvals)[id].status == PENDING
      ensures error.None? ==>
                var x := old(approvals)[id];
                && id in approvals
                && approvals[id] == x.(status := if approved then APPROVED else DENIED, reason := reason, remember := remember)
                && |events| > |old(events)|
                && events[|old(events)|] == Envelope(x.turnId, x.turnNumber, x.messageId,
                                                     ToolApprovalResolved(id, x.toolName, approved, reason, remember))
                && (!(approved && remember) ==> approvalPolicy == old(approvalPolicy) && |events| == |old(events)| + 1)
    {
      ghost var s := View();
      if ValidateDecision(s, id).None? {
        DecisionTold(s, id, approved, reason, remember);
      }
      DecideKeeps(s, id, approved, reason, remember);
      StepWired(s, HumanDecision(id, approved, reason, remember));
      if id !in approvals {
        return Some(UnknownToolApproval);
      }
      if approvals[id].status != PENDING {
        return Some(ToolApprovalAlreadyResolved);
      }
      var toolName := approvals[id].toolName;
      ResolveAndPublish(id, approved, reason, remember);
      if approved && remember {
        var _ := ApplyPolicyUpdate(approvalPolicy.WithToolAllowed(toolName));
      }
      error := None;
    }

    method CloseEvaluation(id: ToolId, event: Event)
      requires id in approvals
      modifies this`gates, this`events
      ensures View() == Publish(old(View()).(gates := old(gates)[id := Parked]), id, event)
    {
      gates := gates[id := Parked];
      Pub(id, event);
    }

    /** The gate wakes beside its evaluator. */
    method WakeAtEvaluator(id: ToolId)
      requires Valid() && Enabled(View(), WakeEvaluation(id)) && id in approvals
      modifies this
      ensures Valid() && View() == ResumeEvaluation(old(View()), id)
    {
      ghost var s := View();
      WakeEvaluationKeeps(s, id);
      if approvals[id].status != PENDING || closed {
        WakeSettled(id);
      } else {
        WakeUnsettled(id);
      }
    }

    /** Somebody else answered, or the agent is closing. */
    method WakeSettled(id: ToolId)
      requires id in approvals && id in gates && gates[id].Evaluating? && View().Settled(id)
      modifies this`gates, this`events
      ensures View() == ResumeEvaluation(old(View()), id)
    {
      var evaluationId, task := gates[id].evaluationId, gates[id].task;
      if task.Malformed? {
        gates := gates[id := Left(Some(evaluationId))];
        return;
      }
      var reached := if task.Decided? then Some(task.verdict) else None;
      if task.Running? {
        gates := gates[id := Cancelling(evaluationId, reached)];
      } else {
        CloseEvaluation(id, EvaluationSuperseded(id, evaluationId, reached));
      }
    }

    /** The evaluator is done and nobody has answered. */
    method WakeUnsettled(id: ToolId)
      requires id in approvals && id in gates && gates[id].Evaluating? && !View().Settled(id)
      modifies this`gates, this`events, this`approvals
      ensures View() == ResumeEvaluation(old(View()), id)
    {
      var evaluationId, task := gates[id].evaluationId, gates[id].task;
      if task.Aborted? {
        gates := gates[id := Left(Some(evaluationId))];
      } else if !task.Decided? {
        CloseEvaluation(id, EvaluationError(id, evaluationId));
      } else {
        CloseEvaluation(id, EvaluationEnded(id, evaluationId, task.verdict));
        if task.verdict == APPROVE {
          ResolveAndPublish(id, true, task.reason, false);
        } else if task.verdict == DENY {
          ResolveAndPublish(id, false, task.reason, false);
        }
      }
    }

    /** The human gate's wait is over; the call dispatches or raises. */
    method WakeAtGate(id: ToolId) returns (outcome: Denial)
      requires Valid() && Enabled(View(), WakeGate(id)) && id in approvals
      modifies this
      ensures Valid() && View() == ResumeGate(old(View()), id)
      ensures id in approvals
      ensures outcome == if approvals[id].status == APPROVED then Dispatch else ToolApprovalDenied(approvals[id].reason)
    {
      ghost var s := View();
      WakeGateKeeps(s, id);
      outcome := Finalize(id);
    }

    method Finalize(id: ToolId) returns (outcome: Denial)
      requires id in approvals && id in gates
      modifies this
      ensures View() == ResumeGate(old(View()), id) && id in approvals
      ensures outcome == if approvals[id].status == APPROVED then Dispatch else ToolApprovalDenied(approvals[id].reason)
    {
      if approvals[id].status == PENDING {
        var reason := Some(if closed then "agent closed before approval" else "approval unresolved");
        ResolveAndPublish(id, false, reason, approvals[id].remember);
      }
      var approved := approvals[id].status == APPROVED;
      gates := gates[id := Exited(approved)];
      outcome := if approved then Dispatch else ToolApprovalDenied(approvals[id].reason);
    }
  }
}
