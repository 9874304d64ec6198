/** Callback tools: a call parks until a client's result, its timeout, or agent close decides
    it. All three race; whoever is first decides, and the decision is published once. */
module Callbacks {
  import opened Protocol

  /** `outcome` is `None` while the call is PENDING; `value` is the coerced client result. */
  datatype Entry = Entry(
    toolName: string,
    turnId: Option<Uuid>,
    turnNumber: nat,
    messageId: Option<Uuid>,
    outcome: Option<CallbackResolution>,
    value: Option<string>,
    error: Option<string>)

  /** Where the parked call's coroutine is; `TimedOut`: its timer fired, it has not run yet; `Left`:
      its task was cancelled or torn down while it waited. */
  datatype Gate = Waiting | TimedOut | Returned(value: string) | RaisedError(error: Option<string>) | Left

  datatype State = State(entries: map<ToolId, Entry>, gates: map<ToolId, Gate>, closed: bool, log: seq<Envelope>)
  {
    predicate Resolved(id: ToolId) { id in entries && entries[id].outcome.Some? }
  }

  const INIT := State(map[], map[], false, [])

  function Publish(s: State, id: ToolId, e: Event): State
    requires id in s.entries
  {
    var x := s.entries[id];
    s.(log := s.log + [Envelope(x.turnId, x.turnNumber, x.messageId, e)])
  }

  function Request(s: State, id: ToolId, x: Entry): State {
    Publish(s.(entries := s.entries[id := x], gates := s.gates[id := Waiting]), id, CallbackRequested(id, x.toolName))
  }

  function Settle(s: State, id: ToolId, o: CallbackResolution, value: Option<string>, error: Option<string>): State
    requires id in s.entries
  {
    var x := s.entries[id].(outcome := Some(o), value := value, error := error);
    Publish(s.(entries := s.entries[id := x]), id, CallbackResolved(id, x.toolName, o, error))
  }

  /** What a client submits: a result, which either fits the declared output type or not, or
      an error report, which always does. */
  datatype Submission = Result(value: string, fits: bool) | ClientError(message: string)

  datatype CallbackRejection = UnknownCallback | CallbackAlreadyResolved | MalformedCallbackResult

  function Validate(s: State, id: ToolId, r: Submission): Option<CallbackRejection> {
    if id !in s.entries then Some(UnknownCallback)
    else if s.entries[id].outcome.Some? then Some(CallbackAlreadyResolved)
    else if r.Result? && !r.fits then Some(MalformedCallbackResult)
    else None
  }

  function Provide(s: State, id: ToolId, r: Submission): State {
    if Validate(s, id, r).Some? then s
    else
      match r
      case Result(v, _) => Settle(s, id, Ok, Some(v), None)
      case ClientError(m) => Settle(s, id, Failed, None, Some(m))
  }

  /** The reason a call nobody answered ends with; a timeout is named before a close. */
  function Unanswered(timedOut: bool, closed: bool): string {
    if timedOut then "callback timed out before a result arrived"
    else if closed then "agent closed before the callback result arrived"
    else "callback unresolved"
  }

  function Exit(x: Entry): Gate {
    if x.outcome == Some(Ok) && x.value.Some? then Returned(x.value.value) else RaisedError(x.error)
  }

  function Wake(s: State, id: ToolId): State
    requires id in s.entries && id in s.gates
  {
    var s1 :=
      if s.Resolved(id) then s
      else Settle(s, id, Timeout, None, Some(Unanswered(s.gates[id].TimedOut?, s.closed)));
    s1.(gates := s1.gates[id := Exit(s1.entries[id])])
  }

  datatype Step =
    | RequestCallback(id: ToolId, entry: Entry)
    | ProvideResult(id: ToolId, submission: Submission)
    | FireTimeout(id: ToolId)
    | WakeCall(id: ToolId)
    | LeaveCall(id: ToolId)
    | CloseAgent
    | PublishOther(envelope: Envelope)

  predicate Enabled(s: State, step: Step) {
    match step
    case RequestCallback(id, x) => id !in s.entries && x.outcome.None?
    case ProvideResult(_, _) => true
    case FireTimeout(id) => id in s.gates && s.gates[id].Waiting?
    case WakeCall(id) => id in s.entries && id in s.gates
      && (s.gates[id].TimedOut? || (s.gates[id].Waiting? && (s.Resolved(id) || s.closed)))
    case LeaveCall(id) => id in s.gates && (s.gates[id].Waiting? || s.gates[id].TimedOut?)
    case CloseAgent => true
    case PublishOther(e) => !IsCallbackEvent(e.event)
  }

  function Apply(s: State, step: Step): State {
    if !Enabled(s, step) then s
    else
      match step
      case RequestCallback(id, x) => Request(s, id, x)
      case ProvideResult(id, r) => Provide(s, id, r)
      case FireTimeout(id) => s.(gates := s.gates[id := TimedOut])
      case WakeCall(id) => Wake(s, id)
      case LeaveCall(id) => s.(gates := s.gates[id := Left])
      case CloseAgent => s.(closed := true)
      case PublishOther(e) => s.(log := s.log + [e])
  }

  function Exec(s: State, steps: seq<Step>): State
    decreases |steps|
  {
    if |steps| == 0 then s else Exec(Apply(s, steps[0]), steps[1..])
  }

  // ---- The log against the registry ------------------------------------------------------

  predicate Resolves(log: seq<Envelope>, i: nat, id: ToolId) {
    i < |log| && log[i].event.CallbackResolved? && log[i].event.toolId == id
  }

  ghost predicate Silent(log: seq<Envelope>, id: ToolId) {
    forall i: nat :: !Resolves(log, i, id)
  }

  /** Exactly one resolution is published, at `i`, saying what the entry says, for its owner. */
  ghost predicate Spoken(log: seq<Envelope>, i: nat, id: ToolId, x: Entry) {
    && Resolves(log, i, id)
    && x.outcome.Some?
    && log[i] == Envelope(x.turnId, x.turnNumber, x.messageId, CallbackResolved(id, x.toolName, x.outcome.value, x.error))
    && forall j: nat :: Resolves(log, j, id) ==> j == i
  }

  ghost predicate EntrySound(log: seq<Envelope>, id: ToolId, x: Entry) {
    && (if x.outcome.Some? then exists i: nat :: Spoken(log, i, id, x) else Silent(log, id))
    && (x.outcome == Some(Ok) ==> x.value.Some?)
  }

  predicate GateSound(g: Gate, x: Entry) {
    match g
    case Waiting => true
    case TimedOut => true
    case Returned(v) => x.outcome == Some(Ok) && x.value == Some(v)
    case Left => true
    case RaisedError(e) => x.outcome.Some? && x.outcome != Some(Ok) && x.error == e
  }

  ghost predicate Inv(s: State) {
    && (forall id :: id in s.gates <==> id in s.entries)
    && (forall id <- s.entries :: EntrySound(s.log, id, s.entries[id]) && GateSound(s.gates[id], s.entries[id]))
    && (forall id :: id !in s.entries ==> Silent(s.log, id))
  }

  lemma OtherCall(log: seq<Envelope>, e: Envelope, id: ToolId, x: Entry)
    requires e.event.CallbackResolved? ==> e.event.toolId != id
    ensures Silent(log, id) ==> Silent(log + [e], id)
    ensures EntrySound(log, id, x) ==> EntrySound(log + [e], id, x)
  {
    assert forall i: nat :: Resolves(log + [e], i, id) <==> Resolves(log, i, id);
    if EntrySound(log, id, x) && x.outcome.Some? {
      var i: nat :| Spoken(log, i, id, x);
      assert Spoken(log + [e], i, id, x);
    }
  }

  lemma SettleSpeaks(log: seq<Envelope>, id: ToolId, x: Entry)
    requires Silent(log, id) && x.outcome.Some? && (x.outcome == Some(Ok) ==> x.value.Some?)
    ensures EntrySound(log + [Envelope(x.turnId, x.turnNumber, x.messageId,
                                       CallbackResolved(id, x.toolName, x.outcome.value, x.error))], id, x)
  {
    var log' := log + [Envelope(x.turnId, x.turnNumber, x.messageId,
                                CallbackResolved(id, x.toolName, x.outcome.value, x.error))];
    assert forall j: nat :: j < |log| && Resolves(log', j, id) ==> Resolves(log, j, id);
    assert Spoken(log', |log|, id, x);
  }

  lemma AppendKeeps(s: State, t: State, e: Envelope)
    requires Inv(s) && t == s.(log := s.log + [e]) && !e.event.CallbackResolved?
    ensures Inv(t)
  {
    forall id | id in t.entries
      ensures EntrySound(t.log, id, t.entries[id])
    {
      OtherCall(s.log, e, id, s.entries[id]);
    }
    forall id | id !in t.entries
      ensures Silent(t.log, id)
    {
      assert Silent(s.log, id);
      assert forall i: nat :: Resolves(t.log, i, id) ==> Resolves(s.log, i, id);
    }
  }

  lemma RequestKeeps(s: State, id: ToolId, x: Entry)
    requires Inv(s) && id !in s.entries && x.outcome.None?
    ensures Inv(Request(s, id, x))
  {
    var s1 := s.(entries := s.entries[id := x], gates := s.gates[id := Waiting]);
    assert Inv(s1);
    var t := Request(s, id, x);
    AppendKeeps(s1, t, t.log[|s.log|]);
  }

  lemma SettleKeeps(s: State, id: ToolId, o: CallbackResolution, value: Option<string>, error: Option<string>)
    requires Inv(s) && id in s.entries && s.entries[id].outcome.None? && (o == Ok ==> value.Some?)
    ensures Inv(Settle(s, id, o, value, error))
  {
    var t := Settle(s, id, o, value, error);
    var e := t.log[|s.log|];
    SettleSpeaks(s.log, id, t.entries[id]);
    forall j | j in t.entries && j != id
      ensures EntrySound(t.log, j, t.entries[j])
    {
      OtherCall(s.log, e, j, s.entries[j]);
    }
    forall j | j !in t.entries
      ensures Silent(t.log, j)
    {
      assert Silent(s.log, j);
      assert forall i: nat :: Resolves(t.log, i, j) ==> Resolves(s.log, i, j);
    }
  }

  lemma ExitKeeps(s: State, id: ToolId)
    requires Inv(s) && s.Resolved(id)
    ensures Inv(s.(gates := s.gates[id := Exit(s.entries[id])]))
  {
  }

  lemma StepKeeps(s: State, step: Step)
    requires Inv(s)
    ensures Inv(Apply(s, step))
  {
    if Enabled(s, step) {
      match step
      case RequestCallback(id, x) => RequestKeeps(s, id, x);
      case ProvideResult(id, r) =>
        if Validate(s, id, r).None? {
          if r.Result? { SettleKeeps(s, id, Ok, Some(r.value), None); }
          else { SettleKeeps(s, id, Failed, None, Some(r.message)); }
        }
      case WakeCall(id) =>
        if s.Resolved(id) { ExitKeeps(s, id); }
        else {
          var why := Some(Unanswered(s.gates[id].TimedOut?, s.closed));
          SettleKeeps(s, id, Timeout, None, why);
          ExitKeeps(Settle(s, id, Timeout, None, why), id);
        }
      case PublishOther(e) => AppendKeeps(s, Apply(s, step), e);
      case _ =>
    }
  }

  lemma {:induction false} RunKeeps(s: State, steps: seq<Step>)
    requires Inv(s)
    ensures Inv(Exec(s, steps))
    decreases |steps|
  {
    if |steps| > 0 {
      StepKeeps(s, steps[0]);
      RunKeeps(Apply(s, steps[0]), steps[1..]);
    }
  }

  /** First decision wins: a resolved call's entry never changes again. */
  lemma {:induction false} SettledForGood(s: State, steps: seq<Step>, id: ToolId)
    requires s.Resolved(id)
    ensures id in Exec(s, steps).entries && Exec(s, steps).entries[id] == s.entries[id]
    decreases |steps|
  {
    if |steps| > 0 {
      assert Apply(s, steps[0]).entries[id] == s.entries[id];
      SettledForGood(Apply(s, steps[0]), steps[1..], id);
    }
  }

  /** In every run a call that came back published exactly one resolution, and it returned a
      value if and only if that event says ok. */
  lemma ReturnsAsPublished(steps: seq<Step>, id: ToolId) returns (i: nat)
    requires var s := Exec(INIT, steps); id in s.gates && (s.gates[id].Returned? || s.gates[id].RaisedError?)
    ensures var s := Exec(INIT, steps);
            && Resolves(s.log, i, id)
            && (forall j: nat :: Resolves(s.log, j, id) ==> j == i)
            && (s.gates[id].Returned? <==> s.log[i].event.outcome == Ok)
            && (s.gates[id].RaisedError? ==> s.gates[id].error == s.log[i].event.error)
  {
    RunKeeps(INIT, steps);
    var s := Exec(INIT, steps);
    assert EntrySound(s.log, id, s.entries[id]);
    i :| Spoken(s.log, i, id, s.entries[id]);
  }

  /** The call's coroutine is gone. */
  predicate Gone(g: Gate) { g.Returned? || g.RaisedError? || g.Left? }

  predicate LeavesBy(s: State, step: Step, id: ToolId) {
    step == LeaveCall(id) && Enabled(s, step)
  }

  /** Some step of the run cancelled or tore down the waiting call. */
  predicate Leaves(s: State, steps: seq<Step>, id: ToolId)
    decreases |steps|
  {
    |steps| > 0 && (LeavesBy(s, steps[0], id) || Leaves(Apply(s, steps[0]), steps[1..], id))
  }

  predicate HasLeft(s: State, id: ToolId) {
    id in s.gates && s.gates[id].Left?
  }

  lemma LeftByStep(s: State, step: Step, id: ToolId)
    requires Inv(s)
    ensures HasLeft(Apply(s, step), id) <==> HasLeft(s, id) || LeavesBy(s, step, id)
  {
  }

  lemma {:induction false} LeftByRun(s: State, steps: seq<Step>, id: ToolId)
    requires Inv(s)
    ensures HasLeft(Exec(s, steps), id) <==> HasLeft(s, id) || Leaves(s, steps, id)
    decreases |steps|
  {
    if |steps| > 0 {
      StepKeeps(s, steps[0]);
      LeftByStep(s, steps[0], id);
      LeftByRun(Apply(s, steps[0]), steps[1..], id);
    }
  }

  predicate OkAt(log: seq<Envelope>, i: nat, id: ToolId) {
    Resolves(log, i, id) && log[i].event.outcome == Ok
  }

  /** Over whole runs: a call that is gone returned a value if and only if its one published
      resolution says ok and no step of the run made it leave; a result for a call that has left
      is accepted and published all the same. */
  lemma ReturnedIff(steps: seq<Step>, id: ToolId)
    requires id in Exec(INIT, steps).gates && Gone(Exec(INIT, steps).gates[id])
    ensures var s := Exec(INIT, steps);
            s.gates[id].Returned? <==> (exists i: nat :: OkAt(s.log, i, id)) && !Leaves(INIT, steps, id)
  {
    RunKeeps(INIT, steps);
    LeftByRun(INIT, steps, id);
    var s := Exec(INIT, steps);
    if !s.gates[id].Left? {
      var i := ReturnsAsPublished(steps, id);
      assert s.gates[id].Returned? ==> OkAt(s.log, i, id);
    }
  }

  /** A malformed result is refused without consuming the one-shot gate: the same call still
      accepts a corrected one, whose value is what the tool then returns. */
  lemma MalformedDoesNotConsume(s: State, id: ToolId, bad: string, good: string)
    requires Inv(s) && id in s.entries && !s.Resolved(id)
    ensures Provide(s, id, Result(bad, false)) == s
    ensures var t := Provide(s, id, Result(good, true)); t.Resolved(id) && Exit(t.entries[id]) == Returned(good)
  {
  }

  // ---- What each step does -------------------------------------------------------------------

  /** `t` is `s` with this one more event, for the owner of call `id`. */
  ghost predicate OneEvent(s: State, t: State, id: ToolId, e: Event) {
    && id in t.entries && |t.log| == |s.log| + 1
    && t.log == s.log + [Envelope(t.entries[id].turnId, t.entries[id].turnNumber, t.entries[id].messageId, e)]
  }

  lemma RequestSays(s: State, id: ToolId, x: Entry)
    requires Enabled(s, RequestCallback(id, x))
    ensures var t := Apply(s, RequestCallback(id, x));
            && OneEvent(s, t, id, CallbackRequested(id, x.toolName))
            && t == s.(entries := s.entries[id := x], gates := s.gates[id := Waiting], log := t.log)
  {
  }

  /** Which submissions are refused, and why; a refused one changes nothing. An error report is
      never malformed. */
  lemma SubmissionIff(s: State, id: ToolId, r: Submission)
    ensures Validate(s, id, r) == Some(UnknownCallback) <==> id !in s.entries
    ensures Validate(s, id, r) == Some(CallbackAlreadyResolved) <==> id in s.entries && s.entries[id].outcome.Some?
    ensures Validate(s, id, r) == Some(MalformedCallbackResult)
            <==> id in s.entries && s.entries[id].outcome.None? && r.Result? && !r.fits
    ensures Validate(s, id, r).Some? ==> Apply(s, ProvideResult(id, r)) == s
  {
  }

  /** A client's result settles the call with its value, and a client's error report with its text;
      the published resolution says which, and nothing else changes. */
  lemma SubmissionSays(s: State, id: ToolId, r: Submission)
    requires id in s.entries && s.entries[id].outcome.None? && (r.Result? ==> r.fits)
    ensures var t := Apply(s, ProvideResult(id, r));
            var x := s.entries[id];
            match r
            case Result(value, _) =>
              && OneEvent(s, t, id, CallbackResolved(id, x.toolName, Ok, None))
              && t == s.(log := t.log, entries := s.entries[id := x.(outcome := Some(Ok), value := Some(value), error := None)])
            case ClientError(message) =>
              && OneEvent(s, t, id, CallbackResolved(id, x.toolName, Failed, Some(message)))
              && t == s.(log := t.log, entries := s.entries[id := x.(outcome := Some(Failed), value := None, error := Some(message))])
  {
  }

  /** A call nobody answered times out, in the words of its timer if that fired and of the close
      otherwise, and raises just that. */
  lemma UnansweredSays(s: State, id: ToolId)
    requires Enabled(s, WakeCall(id)) && s.entries[id].outcome.None?
    ensures var t := Apply(s, WakeCall(id));
            var x := s.entries[id];
            var why := if s.gates[id] == TimedOut then "callback timed out before a result arrived"
                       else "agent closed before the callback result arrived";
            && OneEvent(s, t, id, CallbackResolved(id, x.toolName, Timeout, Some(why)))
            && t == s.(log := t.log, gates := s.gates[id := RaisedError(Some(why))],
                       entries := s.entries[id := x.(outcome := Some(Timeout), value := None, error := Some(why))])
  {
  }

  /** In every run: what the first accepted submission of a call held is what the call comes back
      with, unless its task was cancelled or torn down. */
  lemma SubmissionComesBack(steps: seq<Step>, i: nat, id: ToolId, r: Submission)
    requires i < |steps| && steps[i] == ProvideResult(id, r)
    requires var s := Exec(INIT, steps[..i]); id in s.entries && s.entries[id].outcome.None? && (r.Result? ==> r.fits)
    ensures var t := Exec(INIT, steps);
            id in t.gates && (Gone(t.gates[id]) ==>
              || t.gates[id] == Left
              || t.gates[id] == match r case Result(value, _) => Returned(value) case ClientError(message) => RaisedError(Some(message)))
  {
    var s := Exec(INIT, steps[..i]);
    SubmissionSays(s, id, r);
    assert steps == steps[..i] + steps[i..];
    ExecJoins(INIT, steps[..i], steps[i..]);
    assert steps[i..][0] == steps[i];
    SettledForGood(Apply(s, steps[i]), steps[i..][1..], id);
    RunKeeps(INIT, steps);
  }

  lemma {:induction false} ExecJoins(s: State, xs: seq<Step>, ys: seq<Step>)
    ensures Exec(s, xs + ys) == Exec(Exec(s, xs), ys)
    decreases |xs|
  {
    if |xs| == 0 {
      assert xs + ys == ys;
    } else {
      assert (xs + ys)[1..] == xs[1..] + ys;
      ExecJoins(Apply(s, xs[0]), xs[1..], ys);
    }
  }

  // ---- The runner's callback registry --------------------------------------------------------

  class CallbackRegistry {
    var callbacks: map<ToolId, Entry>
    var gates: map<ToolId, Gate>
    var closed: bool
    var events: seq<Envelope>

    ghost function View(): State
      reads this
    {
      State(callbacks, gates, closed, events)
    }

    constructor ()
      ensures View() == INIT
    {
      callbacks, gates, closed, events := map[], map[], false, [];
    }

    method Pub(id: ToolId, event: Event)
      requires id in callbacks
      modifies this`events
      ensures View() == Publish(old(View()), id, event)
    {
      var entry := callbacks[id];
      events := events + [Envelope(entry.turnId, entry.turnNumber, entry.messageId, event)];
    }

    method ResolveAndPublish(id: ToolId, o: CallbackResolution, value: Option<string>, error: Option<string>)
      requires id in callbacks
      modifies this`callbacks, this`events
      ensures View() == Settle(old(View()), id, o, value, error)
    {
      var entry := callbacks[id];
      callbacks := callbacks[id := entry.(outcome := Some(o), value := value, error := error)];
      Pub(id, CallbackResolved(id, entry.toolName, o, error));
    }

    method HandleProvideCallbackResult(id: ToolId, r: Submission) returns (error: Option<CallbackRejection>)
      modifies this`callbacks, this`events
      ensures View() == Provide(old(View()), id, r) && error == Validate(old(View()), id, r)
    {
      if id !in callbacks {
        return Some(UnknownCallback);
      }
      if callbacks[id].outcome.Some? {
        return Some(CallbackAlreadyResolved);
      }
      match r
      case Result(value, fits) =>
        if !fits {
          return Some(MalformedCallbackResult);
        }
        ResolveAndPublish(id, Ok, Some(value), None);
        return None;
      case ClientError(message) =>
        ResolveAndPublish(id, Failed, None, Some(message));
        return None;
    }

    /** The parked call's coroutine after its wait: a result, a timeout, or close. */
    method ResumeCall(id: ToolId)
      requires id in callbacks && id in gates && Enabled(View(), WakeCall(id))
      modifies this
      ensures View() == Wake(old(View()), id)
    {
      if callbacks[id].outcome.None? {
        ResolveAndPublish(id, Timeout, None, Some(Unanswered(gates[id].TimedOut?, closed)));
      }
      gates := gates[id := Exit(callbacks[id])];
    }
  }
}
