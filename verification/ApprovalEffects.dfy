/** What each step of the approval gate does, said of the call's own entry, its own event and the
    policy; and what a human decision means for the call over whole runs. */
module ApprovalEffects {
  import opened Collections
  import opened Protocol
  import opened ApprovalMachine
  import opened ApprovalTheorems

  /** `e` is published for the call that `x` registered. */
  predicate OwnedBy(e: Envelope, x: Entry) {
    e.turnId == x.turnId && e.turnNumber == x.turnNumber && e.messageId == x.messageId
  }

  // ---- What a policy approves -----------------------------------------------------------------

  /** The baseline approves nothing; every switch approves just what it says, and none takes
      anything away. */
  lemma PolicyApproves(p: Policy, name: string, safe: bool)
    ensures p.skipAll ==> p.AutoApproves(name, safe)
    ensures name in p.tools ==> p.AutoApproves(name, safe)
    ensures p.allowSafe && safe ==> p.AutoApproves(name, safe)
    ensures !p.skipAll && name !in p.tools && !safe ==> !p.AutoApproves(name, safe)
    ensures !p.skipAll && name !in p.tools && !p.allowSafe ==> !p.AutoApproves(name, safe)
  {
  }

  /** Remembering a tool adds it to the list and touches nothing else of the policy. */
  lemma RemembersOneTool(p: Policy, name: string)
    ensures p.WithToolAllowed(name) == p.(tools := p.tools + {name})
  {
  }

  // ---- A cascade, call by call ------------------------------------------------------------------

  /** The calls of `ids` that the policy approves, in their order. */
  ghost predicate Chosen(s: State, ids: seq<ToolId>, p: Policy, released: seq<ToolId>) {
    && (forall id <- ids :: id in s.entries)
    && (forall id :: id in released <==> id in ids && p.AutoApproves(s.entries[id].toolName, s.entries[id].inherentlySafe))
    && InOrder(ids, released)
  }

  predicate Precedes(all: seq<ToolId>, a: ToolId, b: ToolId) {
    exists x, y :: 0 <= x < y < |all| && all[x] == a && all[y] == b
  }

  /** Every two of `sub` stand in `all` in the order they have in `sub`. */
  predicate InOrder(all: seq<ToolId>, sub: seq<ToolId>) {
    forall i, j :: 0 <= i < j < |sub| ==> Precedes(all, sub[i], sub[j])
  }

  const RELEASED_BY_POLICY := Some("auto-approved by updated policy")

  /** The event that announces the release of call `id`. */
  predicate Announces(e: Envelope, id: ToolId, x: Entry) {
    OwnedBy(e, x) && e.event == ToolApprovalResolved(id, x.toolName, true, RELEASED_BY_POLICY, false)
  }

  function ApprovedEntry(x: Entry): Entry {
    x.(status := APPROVED, reason := RELEASED_BY_POLICY, remember := false)
  }

  ghost predicate EntriesReleased(s: State, t: State, released: seq<ToolId>) {
    && t.entries.Keys == s.entries.Keys
    && (forall id <- s.entries :: t.entries[id] == if id in released then ApprovedEntry(s.entries[id]) else s.entries[id])
  }

  ghost predicate EventsReleased(s: State, t: State, released: seq<ToolId>) {
    && (forall k :: 0 <= k < |released| ==> released[k] in s.entries)
    && |t.log| == |s.log| + |released| && s.log <= t.log
    && (forall k :: 0 <= k < |released| ==> Announces(t.log[|s.log| + k], released[k], s.entries[released[k]]))
  }

  /** Each of `released` has been approved by the policy and announced, in order, and no other call
      has changed. */
  ghost predicate Released(s: State, t: State, released: seq<ToolId>) {
    && t == s.(entries := t.entries, log := t.log, policy := t.policy)
    && EntriesReleased(s, t, released) && EventsReleased(s, t, released)
  }

  lemma ReleaseOne(s: State, id: ToolId)
    requires id in s.entries
    ensures Released(s, Resolve(s, id, true, RELEASED, false), [id])
  {
  }

  lemma ThenMore(s: State, t: State, u: State, id: ToolId, more: seq<ToolId>)
    requires Released(s, t, [id]) && Released(t, u, more) && id !in more
    ensures Released(s, u, [id] + more)
  {
    ThenMoreEntries(s, t, u, id, more);
    ThenMoreEvents(s, t, u, id, more);
  }

  lemma ThenMoreEntries(s: State, t: State, u: State, id: ToolId, more: seq<ToolId>)
    requires EntriesReleased(s, t, [id]) && EntriesReleased(t, u, more) && id !in more
    ensures EntriesReleased(s, u, [id] + more)
  {
  }

  lemma ThenMoreEvents(s: State, t: State, u: State, id: ToolId, more: seq<ToolId>)
    requires EventsReleased(s, t, [id]) && EventsReleased(t, u, more) && id !in more && EntriesReleased(s, t, [id])
    ensures EventsReleased(s, u, [id] + more)
  {
    var all := [id] + more;
    forall k | 0 <= k < |all|
      ensures all[k] in s.entries && Announces(u.log[|s.log| + k], all[k], s.entries[all[k]])
    {
      if k == 0 {
        assert u.log[|s.log|] == t.log[|s.log| + 0] && Announces(t.log[|s.log| + 0], [id][0], s.entries[id]);
      } else {
        assert u.log[|t.log| + (k - 1)] == u.log[|s.log| + k];
        assert all[k] == more[k - 1] && more[k - 1] in more && t.entries[more[k - 1]] == s.entries[more[k - 1]];
        assert Announces(u.log[|t.log| + (k - 1)], more[k - 1], t.entries[more[k - 1]]);
      }
    }
  }

  lemma StillPrecedes(id: ToolId, rest: seq<ToolId>, a: ToolId, b: ToolId)
    requires Precedes(rest, a, b)
    ensures Precedes([id] + rest, a, b)
  {
    var x, y :| 0 <= x < y < |rest| && rest[x] == a && rest[y] == b;
    assert ([id] + rest)[x + 1] == a && ([id] + rest)[y + 1] == b;
  }

  lemma FirstPrecedes(id: ToolId, rest: seq<ToolId>, b: ToolId)
    requires b in rest
    ensures Precedes([id] + rest, id, b)
  {
    var y :| 0 <= y < |rest| && rest[y] == b;
    assert ([id] + rest)[0] == id && ([id] + rest)[y + 1] == b;
  }

  lemma LaterInOrder(id: ToolId, rest: seq<ToolId>, sub: seq<ToolId>)
    requires InOrder(rest, sub)
    ensures InOrder([id] + rest, sub)
    ensures (forall x <- sub :: x in rest) ==> InOrder([id] + rest, [id] + sub)
  {
    forall i, j | 0 <= i < j < |sub|
      ensures Precedes([id] + rest, sub[i], sub[j])
    {
      StillPrecedes(id, rest, sub[i], sub[j]);
    }
    if forall x <- sub :: x in rest {
      forall j | 0 < j < |sub| + 1
        ensures Precedes([id] + rest, id, ([id] + sub)[j])
      {
        FirstPrecedes(id, rest, sub[j - 1]);
      }
    }
  }

  /** The cascade releases, in order, exactly the calls it is given that the policy approves. */
  lemma {:induction false} CascadeReleases(s: State, ids: seq<ToolId>) returns (released: seq<ToolId>)
    requires StillPending(s, ids)
    ensures Chosen(s, ids, s.policy, released) && Released(s, Cascade(s, ids), released)
    decreases |ids|
  {
    if ids == [] {
      released := [];
    } else if s.policy.AutoApproves(s.entries[ids[0]].toolName, s.entries[ids[0]].inherentlySafe) {
      var t := Resolve(s, ids[0], true, RELEASED, false);
      RestStillPending(s, ids);
      var more := CascadeReleases(t, ids[1..]);
      ReleaseOne(s, ids[0]);
      ChosenFirst(s, t, ids, more);
      ThenMore(s, t, Cascade(t, ids[1..]), ids[0], more);
      released := [ids[0]] + more;
    } else {
      assert forall i :: 0 <= i < |ids| - 1 ==> ids[1..][i] == ids[i + 1];
      released := CascadeReleases(s, ids[1..]);
      ChosenLater(s, ids, released);
    }
  }

  lemma ChosenFirst(s: State, t: State, ids: seq<ToolId>, more: seq<ToolId>)
    requires StillPending(s, ids) && ids != [] && t == Resolve(s, ids[0], true, RELEASED, false)
    requires s.policy.AutoApproves(s.entries[ids[0]].toolName, s.entries[ids[0]].inherentlySafe)
    requires Chosen(t, ids[1..], s.policy, more)
    ensures ids[0] !in more && Chosen(s, ids, s.policy, [ids[0]] + more)
  {
    assert ids == [ids[0]] + ids[1..];
    assert forall id <- ids[1..] :: id != ids[0] && t.entries[id] == s.entries[id];
    LaterInOrder(ids[0], ids[1..], more);
  }

  lemma ChosenLater(s: State, ids: seq<ToolId>, released: seq<ToolId>)
    requires ids != [] && ids[0] in s.entries && Chosen(s, ids[1..], s.policy, released)
    requires !s.policy.AutoApproves(s.entries[ids[0]].toolName, s.entries[ids[0]].inherentlySafe)
    ensures Chosen(s, ids, s.policy, released)
  {
    assert ids == [ids[0]] + ids[1..];
    LaterInOrder(ids[0], ids[1..], released);
  }

  /** The pending calls stand in the order in which they were registered. */
  lemma {:induction false} PendingInOrderOf(entries: map<ToolId, Entry>, order: seq<ToolId>)
    requires forall id <- order :: id in entries
    ensures InOrder(order, PendingIds(entries, order))
  {
    if order != [] {
      PendingInOrderOf(entries, order[1..]);
      PendingInOrder(entries, order[1..]);
      LaterInOrder(order[0], order[1..], PendingIds(entries, order[1..]));
      assert order == [order[0]] + order[1..];
    }
  }

  lemma OrderOfOrder(a: seq<ToolId>, b: seq<ToolId>, c: seq<ToolId>)
    requires InOrder(a, b) && InOrder(b, c)
    ensures InOrder(a, c)
  {
    forall i, j | 0 <= i < j < |c|
      ensures Precedes(a, c[i], c[j])
    {
      assert Precedes(b, c[i], c[j]);
      var x, y :| 0 <= x < y < |b| && b[x] == c[i] && b[y] == c[j];
      assert Precedes(a, b[x], b[y]);
    }
  }

  /** Exactly the pending calls of `s` that `p` approves. */
  ghost predicate PendingApproved(s: State, p: Policy, released: seq<ToolId>) {
    forall id :: id in released <==>
      id in s.entries && s.entries[id].status == PENDING && p.AutoApproves(s.entries[id].toolName, s.entries[id].inherentlySafe)
  }

  /** What installing a policy releases: exactly the pending calls it approves, in registration
      order; or nothing at all, when it turns auto mode on and no evaluator is wired. */
  lemma PolicyReleases(s: State, p: Policy) returns (released: seq<ToolId>)
    requires Registered(s)
    ensures var t := Apply(s, SetPolicy(p));
            && (p.autoMode && !s.hasEvaluator ==> t == s)
            && (!(p.autoMode && !s.hasEvaluator) ==>
                  t.policy == p && Released(s, t, released) && InOrder(s.order, released) && PendingApproved(s, p, released))
  {
    released := [];
    if Installable(s, p) {
      released := InstallReleases(s, p);
    }
  }

  lemma InstallReleases(s: State, p: Policy) returns (released: seq<ToolId>)
    requires Registered(s) && Installable(s, p)
    ensures var t := ApplyPolicy(s, p);
            t.policy == p && Released(s, t, released) && InOrder(s.order, released) && PendingApproved(s, p, released)
  {
    var s1 := s.(policy := p);
    AllStillPending(s, p);
    released := CascadeReleases(s1, AllPending(s));
    CascadeWired(s1, AllPending(s));
    Swapped(s, s1, Cascade(s1, AllPending(s)), released);
    PendingChosen(s, s1, released);
  }

  lemma Swapped(s: State, s1: State, t: State, released: seq<ToolId>)
    requires s1 == s.(policy := s1.policy) && Released(s1, t, released)
    ensures Released(s, t, released)
  {
  }

  lemma PendingChosen(s: State, s1: State, released: seq<ToolId>)
    requires Registered(s) && s1 == s.(policy := s1.policy) && Chosen(s1, AllPending(s), s1.policy, released)
    ensures InOrder(s.order, released) && PendingApproved(s, s1.policy, released)
  {
    PendingInOrder(s.entries, s.order);
    PendingInOrderOf(s.entries, s.order);
    OrderOfOrder(s.order, AllPending(s), released);
  }

  // ---- A human decision -----------------------------------------------------------------------------

  /** A decision for an unknown or settled call changes nothing; and which of the two it was. */
  lemma DecisionRefusedIff(s: State, id: ToolId, approved: bool, reason: Option<string>, remember: bool)
    requires Registered(s)
    ensures ValidateDecision(s, id) == Some(UnknownToolApproval) <==> id !in s.entries
    ensures ValidateDecision(s, id) == Some(ToolApprovalAlreadyResolved) <==> id in s.entries && s.entries[id].status != PENDING
    ensures id !in s.entries || s.entries[id].status != PENDING ==>
              Apply(s, HumanDecision(id, approved, reason, remember)) == s
  {
  }

  /** The call's entry and its event say what the person said: approved or denied, with that reason.
      Unless it was an approval to be remembered, nothing else changes. */
  lemma DecisionSays(s: State, id: ToolId, approved: bool, reason: Option<string>, remember: bool)
    requires Registered(s) && id in s.entries && s.entries[id].status == PENDING
    requires !(approved && remember)
    ensures var x := s.entries[id];
            var t := Apply(s, HumanDecision(id, approved, reason, remember));
            && |t.log| == |s.log| + 1 && s.log <= t.log
            && OwnedBy(t.log[|s.log|], x)
            && t.log[|s.log|].event == ToolApprovalResolved(id, x.toolName, approved, reason, remember)
            && t == s.(entries := s.entries[id := x.(status := if approved then APPROVED else DENIED, reason := reason,
                                                    remember := remember)],
                       log := t.log)
  {
  }

  /** An approval to be remembered says so first, adds the tool to the policy, and then releases, in
      registration order, exactly the other pending calls that the grown policy approves. */
  lemma RememberedDecision(s: State, id: ToolId, reason: Option<string>) returns (released: seq<ToolId>)
    requires Registered(s) && Wired(s) && id in s.entries && s.entries[id].status == PENDING
    ensures var x := s.entries[id];
            var t := Apply(s, HumanDecision(id, true, reason, true));
            var first := Envelope(x.turnId, x.turnNumber, x.messageId, ToolApprovalResolved(id, x.toolName, true, reason, true));
            var s1 := s.(entries := s.entries[id := x.(status := APPROVED, reason := reason, remember := true)],
                         log := s.log + [first]);
            && t.policy == s.policy.(tools := s.policy.tools + {x.toolName})
            && Released(s1, t, released) && InOrder(s.order, released)
            && forall j :: j in released <==>
                 && j in s.entries && j != id && s.entries[j].status == PENDING
                 && t.policy.AutoApproves(s.entries[j].toolName, s.entries[j].inherentlySafe)
  {
    var x := s.entries[id];
    var s1 := Resolve(s, id, true, reason, true);
    var p := s.policy.WithToolAllowed(x.toolName);
    RemembersOneTool(s.policy, x.toolName);
    released := InstallReleases(s1, p);
  }

  /** Over any run: a call whose first decision was a person's denial never dispatches, and one whose
      first decision was a person's approval is never turned down, whatever else happens. */
  lemma HumanDecisionStands(policy: Policy, hasEvaluator: bool, steps: seq<Step>, i: nat, id: ToolId)
    requires (policy.autoMode ==> hasEvaluator) && i < |steps| && steps[i].HumanDecision? && steps[i].id == id
    requires var s := Reached(policy, hasEvaluator, steps[..i]);
             id in s.entries && s.entries[id].status == PENDING
    ensures var t := Reached(policy, hasEvaluator, steps);
            && id in t.entries && t.entries[id].status == (if steps[i].approved then APPROVED else DENIED)
            && t.entries[id].reason == steps[i].reason
            && id in t.gates && t.gates[id] != Exited(!steps[i].approved)
  {
    var s := Reached(policy, hasEvaluator, steps[..i]);
    DecisionSettles(s, id, steps[i].approved, steps[i].reason, steps[i].remember);
    RunOn(policy, hasEvaluator, steps, i);
    StaysSettled(Apply(s, steps[i]), steps[i + 1..], id);
    GateFollows(Reached(policy, hasEvaluator, steps), id);
  }

  lemma DecisionSettles(s: State, id: ToolId, approved: bool, reason: Option<string>, remember: bool)
    requires Registered(s) && Wired(s) && id in s.entries && s.entries[id].status == PENDING
    ensures var t := Apply(s, HumanDecision(id, approved, reason, remember));
            && id in t.entries && t.Resolved(id)
            && t.entries[id].status == (if approved then APPROVED else DENIED) && t.entries[id].reason == reason
  {
    if approved && remember {
      var released := RememberedDecision(s, id, reason);
    } else {
      DecisionSays(s, id, approved, reason, remember);
    }
  }

  lemma GateFollows(s: State, id: ToolId)
    requires Inv(s) && id in s.entries
    ensures id in s.gates
    ensures forall d :: s.gates[id] == Exited(d) ==> s.entries[id].status == (if d then APPROVED else DENIED)
  {
    var c := Look(s, id);
  }

  lemma {:induction false} ExecJoins(s: State, xs: seq<Step>, ys: seq<Step>)
    requires Inv(s) && Wired(s)
    ensures Exec(s, xs + ys) == Exec(Exec(s, xs), ys)
    decreases |xs|
  {
    if |xs| == 0 {
      assert xs + ys == ys;
    } else {
      StepKeeps(s, xs[0]);
      assert (xs + ys)[1..] == xs[1..] + ys;
      ExecJoins(Apply(s, xs[0]), xs[1..], ys);
    }
  }

  lemma RunOn(policy: Policy, hasEvaluator: bool, steps: seq<Step>, i: nat)
    requires (policy.autoMode ==> hasEvaluator) && i < |steps|
    ensures var s := Reached(policy, hasEvaluator, steps[..i]);
            && Inv(Apply(s, steps[i])) && Wired(Apply(s, steps[i]))
            && Reached(policy, hasEvaluator, steps) == Exec(Apply(s, steps[i]), steps[i + 1..])
  {
    InitSound(policy, hasEvaluator);
    var s := Reached(policy, hasEvaluator, steps[..i]);
    StepKeeps(s, steps[i]);
    assert steps == steps[..i] + steps[i..];
    ExecJoins(Init(policy, hasEvaluator), steps[..i], steps[i..]);
    assert steps[i..][0] == steps[i] && steps[i..][1..] == steps[i + 1..];
  }

  // ---- A request ---------------------------------------------------------------------------------------

  /** A call the policy approves leaves no trace. Any other is registered as it is, last, and
      announced for its owner; and it is put to the evaluator, in a new evaluation, exactly when
      one is wired, auto mode is on and a criteria set governs the tool. */
  lemma RequestSays(s: State, id: ToolId, x: Entry, governed: bool)
    requires Registered(s) && Enabled(s, RequestCall(id, x, governed))
    ensures var t := Apply(s, RequestCall(id, x, governed));
            var auto := s.hasEvaluator && s.policy.autoMode && governed;
            && (s.policy.AutoApproves(x.toolName, x.inherentlySafe) ==> t == s)
            && (!s.policy.AutoApproves(x.toolName, x.inherentlySafe) ==>
                  && t.entries == s.entries[id := x] && t.order == s.order + [id]
                  && t.policy == s.policy && t.closed == s.closed && t.hasEvaluator == s.hasEvaluator
                  && s.log <= t.log && |t.log| == |s.log| + (if auto then 2 else 1)
                  && OwnedBy(t.log[|s.log|], x) && t.log[|s.log|].event == ToolApprovalRequested(id, x.toolName)
                  && (!auto ==> t.gates == s.gates[id := Parked])
                  && (auto ==>
                        && t.gates == s.gates[id := Evaluating(s.nextUuid, Running)] && t.nextUuid > s.nextUuid
                        && OwnedBy(t.log[|s.log| + 1], x)
                        && t.log[|s.log| + 1].event == EvaluationStarted(id, s.nextUuid)))
  {
  }

  // ---- The evaluator's end ---------------------------------------------------------------------------------

  /** `t` is `s` with one more event, for the owner of call `id`. */
  ghost predicate OneEvent(s: State, t: State, id: ToolId, e: Event) {
    id in s.entries && |t.log| == |s.log| + 1 && s.log <= t.log && OwnedBy(t.log[|s.log|], s.entries[id])
    && t.log[|s.log|].event == e
  }

  /** A verdict that comes first is published as it is. An escalation leaves the call pending at the
      human gate. */
  lemma EscalationSays(s: State, id: ToolId)
    requires Registered(s) && Enabled(s, WakeEvaluation(id)) && !s.Settled(id)
    requires s.gates[id].task.Decided? && s.gates[id].task.verdict == ESCALATE
    ensures var t := Apply(s, WakeEvaluation(id));
            && OneEvent(s, t, id, EvaluationEnded(id, s.gates[id].evaluationId, ESCALATE))
            && t == s.(gates := s.gates[id := Parked], log := t.log)
  {
  }

  /** An approval and a denial then decide the call, with the evaluator's reason. */
  lemma VerdictSays(s: State, id: ToolId)
    requires Registered(s) && Enabled(s, WakeEvaluation(id)) && !s.Settled(id)
    requires s.gates[id].task.Decided? && s.gates[id].task.verdict != ESCALATE
    ensures var t := Apply(s, WakeEvaluation(id));
            var x, v := s.entries[id], s.gates[id].task;
            var yes := v.verdict == APPROVE;
            && |t.log| == |s.log| + 2 && s.log <= t.log
            && OwnedBy(t.log[|s.log|], x) && OwnedBy(t.log[|s.log| + 1], x)
            && t.log[|s.log|].event == EvaluationEnded(id, s.gates[id].evaluationId, v.verdict)
            && t.log[|s.log| + 1].event == ToolApprovalResolved(id, x.toolName, yes, v.reason, false)
            && t == s.(gates := s.gates[id := Parked], log := t.log,
                       entries := s.entries[id := x.(status := if yes then APPROVED else DENIED, reason := v.reason,
                                                     remember := false)])
  {
  }

  /** An evaluator that failed first is reported and decides nothing. */
  lemma FailureSays(s: State, id: ToolId)
    requires Registered(s) && Enabled(s, WakeEvaluation(id)) && !s.Settled(id)
    requires s.gates[id].task.Raised? || s.gates[id].task.Malformed?
    ensures var t := Apply(s, WakeEvaluation(id));
            && OneEvent(s, t, id, EvaluationError(id, s.gates[id].evaluationId))
            && t == s.(gates := s.gates[id := Parked], log := t.log)
  {
  }

  /** Settled by somebody else first: the evaluation is superseded, at once if the evaluator is done
      and otherwise once it has unwound, with the verdict it had reached by then and only then. */
  lemma SupersededSays(s: State, id: ToolId)
    requires Registered(s) && Enabled(s, WakeEvaluation(id)) && s.Settled(id) && !s.gates[id].task.Malformed?
    ensures var t := Apply(s, WakeEvaluation(id));
            var g := s.gates[id];
            var reached := if g.task.Decided? then Some(g.task.verdict) else None;
            && (g.task.Running? ==> t == s.(gates := s.gates[id := Cancelling(g.evaluationId, None)]))
            && (!g.task.Running? ==> OneEvent(s, t, id, EvaluationSuperseded(id, g.evaluationId, reached))
                                     && t == s.(gates := s.gates[id := Parked], log := t.log))
  {
  }

  lemma UnwoundSays(s: State, id: ToolId)
    requires Registered(s) && Enabled(s, CancelSettles(id))
    ensures var t := Apply(s, CancelSettles(id));
            && OneEvent(s, t, id, EvaluationSuperseded(id, s.gates[id].evaluationId, s.gates[id].reached))
            && t == s.(gates := s.gates[id := Parked], log := t.log)
  {
  }

  /** A gate that leaves, for whichever reason, publishes and decides nothing. */
  lemma LeavingSays(s: State, id: ToolId, step: Step)
    requires Registered(s) && Enabled(s, step) && LeavesBy(s, step, id)
    ensures id in s.gates && Apply(s, step).gates.Keys == s.gates.Keys && Apply(s, step).gates[id].Left?
    ensures Apply(s, step) == s.(gates := Apply(s, step).gates)
  {
  }

  // ---- The human gate's end -------------------------------------------------------------------------------------

  /** The gate lets the call through exactly if it was approved. A call nobody decided is denied, and
      said to be, when the agent closes. */
  lemma GateSays(s: State, id: ToolId)
    requires Registered(s) && Enabled(s, WakeGate(id))
    ensures var t := Apply(s, WakeGate(id));
            var x := s.entries[id];
            && t.gates == s.gates[id := Exited(x.status == APPROVED)]
            && (x.status != PENDING ==> t == s.(gates := t.gates))
            && (x.status == PENDING ==>
                  var why := Some("agent closed before approval");
                  && s.closed
                  && OneEvent(s, t, id, ToolApprovalResolved(id, x.toolName, false, why, x.remember))
                  && t == s.(gates := t.gates, log := t.log, entries := s.entries[id := x.(status := DENIED, reason := why)]))
  {
  }
}
