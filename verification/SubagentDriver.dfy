/** A parent driving one child: the FIFO gate that serializes its turns, the send that is
    idempotent across retries, the dispatch marker, the reading, crashes and resumes, the
    close marker on the parent's own stream, and the ways all of these can be cut short. The
    child is a whole turn-protocol machine that other senders, its loop and its participants
    step at any time in between. */
module SubagentDriver {
  import opened Protocol
  import opened TurnGrammar
  import T = TurnMachine
  import S = TurnSafety
  import L = TurnLog
  import H = TurnTheorems
  import opened TurnConsumer

  /** The memo an attempt heartbeats: what a retry needs to go on without re-sending. */
  datatype Progress = Progress(turnId: Uuid, turnNumber: nat, messageId: Uuid, offset: nat)

  /** Where one activity attempt is. `start` is the offset the attempt began to read at. */
  datatype Attempt =
    | Fresh
    | Sent(p: Progress)
    | Marked(p: Progress)
    | Consuming(p: Progress, start: nat, reply: Option<string>)
    | Over(p: Progress, start: nat, consumed: Consumed)

  /** `Unclosed`: the turn was over, and publishing its close marker raised for want of a turn
      of the parent's own. */
  datatype Result =
    | Turn(result: TurnResult)
    | Unclosed
    | SendRejected(error: T.Rejection)
    | ChildEnded
    | NoActiveTurn

  /** A call of `run_subagent_turn`; its index is the ticket it took. `CutShort`: it was cancelled,
      or its activity failed with no application error, while it held the gate. `Cancelled`:
      it was cancelled while it waited. */
  datatype Call =
    | Queued(message: Message)
    | Holding(message: Message, from: nat, memo: Option<Progress>, attempt: Attempt)
    | Done(result: Result)
    | CutShort
    | GaveUp
    | Cancelled

  /** What an attempt that was given up, by a timeout or with its call, still knows: nothing stops
      it from sending and from publishing its marker. */
  datatype Stray = Stray(message: Message, from: nat)

  /** The two bracket markers on the parent's stream for this child. */
  datatype Marker = MessageSent(turn: nat, fromOffset: nat) | ReplyReceived(turn: nat, ok: bool)

  datatype State = State(
    child: T.State,
    childGone: bool,
    accepted: map<nat, Reply>,      // update id (one per ticket) -> original acceptance
    strays: map<nat, Stray>,        // calls with an attempt that was given up and may go on
    calls: seq<Call>,
    serving: nat,
    closed: bool,
    lastConsumed: nat,
    markers: seq<Marker>,
    tellers: seq<nat>,              // history: the call each marker was published for
    late: set<nat>,                 // history: the markers published by attempts that were given up
    windows: seq<(nat, nat)>)       // history: what each successful turn consumed

  function Start(child: T.State): State {
    State(child, false, map[], map[], [], 0, false, 0, [], [], {}, [])
  }

  datatype Step =
    | Call(message: Message)
    | CloseParent
    | ChildStep(step: T.Step)
    | ChildEnds
    | PassGate(k: nat, turnOpen: bool)
    | Submit(k: nat)
    | PublishMarker(k: nat)
    | BeginReading(k: nat)
    | RecordMemo(k: nat, offset: nat)
    | ReadItem(k: nat)
    | StreamEnds(k: nat)
    | Crash(k: nat)
    | TimeOut(k: nat)
    | Deliver(k: nat, turnOpen: bool)
    | FailOtherwise(k: nat)
    | CancelWaiter(k: nat)
    | LateSubmit(k: nat)
    | LateMarker(k: nat)

  function AttemptOf(s: State, k: nat): Option<Attempt> {
    if k < |s.calls| && s.calls[k].Holding? then Some(s.calls[k].attempt) else None
  }

  predicate Enabled(cfg: T.Config, s: State, step: Step) {
    match step
    case Call(_) => true
    case CloseParent => true
    case ChildStep(t) => !t.Abandon? && !s.childGone
    case ChildEnds => true
    case PassGate(k, _) => k < |s.calls| && s.calls[k].Queued? && (s.serving == k || s.closed)
    case Submit(k) => AttemptOf(s, k) == Some(Fresh)
    case PublishMarker(k) => AttemptOf(s, k).Some? && AttemptOf(s, k).value.Sent?
    case BeginReading(k) => AttemptOf(s, k).Some? && AttemptOf(s, k).value.Marked?
    case RecordMemo(k, o) =>
      && AttemptOf(s, k).Some? && AttemptOf(s, k).value.Consuming?
      && s.calls[k].attempt.start <= o <= s.calls[k].attempt.p.offset
    case ReadItem(k) =>
      && AttemptOf(s, k).Some? && AttemptOf(s, k).value.Consuming?
      && s.calls[k].attempt.p.offset < |s.child.log|
    case StreamEnds(k) => s.childGone && AttemptOf(s, k).Some? && AttemptOf(s, k).value.Consuming?
    case Crash(k) => AttemptOf(s, k).Some?
    case TimeOut(k) => AttemptOf(s, k).Some?
    case Deliver(k, _) => AttemptOf(s, k).Some? && AttemptOf(s, k).value.Over?
    case FailOtherwise(k) => AttemptOf(s, k).Some?
    case CancelWaiter(k) => k < |s.calls| && s.calls[k].Queued?
    case LateSubmit(k) =>
      && k in s.strays && k !in s.accepted && !s.childGone && T.Validate(cfg, s.child, s.strays[k].message).None?
    case LateMarker(k) => k in s.strays && k in s.accepted
  }

  function With(s: State, k: nat, c: Call): State
    requires k < |s.calls|
  {
    s.(calls := s.calls[k := c])
  }

  /** The call is over and the gate passes to the next ticket. */
  function ReleaseAs(s: State, k: nat, c: Call): State
    requires k < |s.calls|
  {
    s.(calls := s.calls[k := c], serving := s.serving + 1)
  }

  function Release(s: State, k: nat, r: Result): State
    requires k < |s.calls|
  {
    ReleaseAs(s, k, Done(r))
  }

  /** A marker that nobody waits for any more. */
  function TellLate(s: State, k: nat): State
    requires k in s.strays && k in s.accepted
  {
    s.(markers := s.markers + [MessageSent(s.accepted[k].turnNumber, s.strays[k].from)],
       tellers := s.tellers + [k],
       late := s.late + {|s.markers|})
  }

  function ProgressOf(r: Reply, from: nat): Progress {
    Progress(r.turnId, r.turnNumber, r.messageId, from)
  }

  function SentWith(c: Call, r: Reply): Call
    requires c.Holding?
  {
    c.(attempt := Sent(ProgressOf(r, c.from)))
  }

  /** The child accepts the message of ticket `k`. */
  function AcceptStep(cfg: T.Config, s: State, k: nat, m: Message): State
    requires T.Validate(cfg, s.child, m).None?
  {
    s.(child := T.AdmitValid(cfg, s.child, m), accepted := s.accepted[k := T.ReplyTo(cfg, s.child, m)])
  }

  function SubmitStep(cfg: T.Config, s: State, k: nat): State
    requires k < |s.calls| && s.calls[k].Holding?
  {
    var c := s.calls[k];
    if s.childGone then Release(s, k, ChildEnded)
    else if k in s.accepted then With(s, k, SentWith(c, s.accepted[k]))
    else
      var error := T.Validate(cfg, s.child, c.message);
      if error.Some? then Release(s, k, SendRejected(error.value))
      else
        var s1 := AcceptStep(cfg, s, k, c.message);
        With(s1, k, SentWith(c, s1.accepted[k]))
  }

  function MarkStep(s: State, k: nat): State
    requires k < |s.calls| && s.calls[k].Holding? && s.calls[k].attempt.Sent?
  {
    var c := s.calls[k];
    s.(calls := s.calls[k := c.(attempt := Marked(c.attempt.p))],
       markers := s.markers + [MessageSent(c.attempt.p.turnNumber, c.from)],
       tellers := s.tellers + [k])
  }

  /** One item of the child's stream, as the reading loop treats it. */
  function ReadOne(log: seq<Envelope>, a: Attempt): Attempt
    requires a.Consuming? && a.p.offset < |log|
  {
    var e := log[a.p.offset];
    var p := a.p.(offset := a.p.offset + 1);
    if e.turnId != Some(p.turnId) then Consuming(p, a.start, a.reply)
    else
      var ours := e.messageId == Some(p.messageId);
      if ours && e.event.MessageHandlerError? then Over(p, a.start, TurnError(ErrorText(e.event.message), p.offset))
      else
        var reply := if ours && e.event.MessageHandlerEnd? then Some(e.event.output) else a.reply;
        if e.event.TurnEnded? then Over(p, a.start, Stopped(reply, p.offset)) else Consuming(p, a.start, reply)
  }

  /** The subscription ends with the child, wherever the reading had got to. */
  function EndOfStream(a: Attempt): Attempt
    requires a.Consuming?
  {
    Over(a.p, a.start, StreamEnded(a.reply, a.p.offset))
  }

  function CloseOf(a: Attempt): Marker
    requires a.Over?
  {
    ReplyReceived(a.p.turnNumber, ResultOf(a.consumed).Answered?)
  }

  /** What an answered turn consumed is written down first. Then the close marker is published on
      the turn the parent has open; with none open that raises, and the `finally` releases the
      gate all the same. */
  function DeliverStep(s: State, k: nat, turnOpen: bool): State
    requires k < |s.calls| && s.calls[k].Holding? && s.calls[k].attempt.Over?
  {
    var c := s.calls[k];
    var r := ResultOf(c.attempt.consumed);
    s.(calls := s.calls[k := Done(if turnOpen then Turn(r) else Unclosed)],
       serving := s.serving + 1,
       markers := if turnOpen then s.markers + [CloseOf(c.attempt)] else s.markers,
       tellers := if turnOpen then s.tellers + [k] else s.tellers,
       lastConsumed := if r.Answered? then c.attempt.p.offset else s.lastConsumed,
       windows := if r.Answered? then s.windows + [(c.from, c.attempt.p.offset)] else s.windows)
  }

  /** No application error: the `finally` releases the gate and nothing is published. */
  function FailStep(s: State, k: nat): State
    requires k < |s.calls| && s.calls[k].Holding?
  {
    ReleaseAs(Astray(s, k), k, CutShort)
  }

  function Astray(s: State, k: nat): State
    requires k < |s.calls| && s.calls[k].Holding?
  {
    s.(strays := s.strays[k := Stray(s.calls[k].message, s.calls[k].from)])
  }

  /** A retry resumes reading from its memo, or starts over when nothing was recorded. */
  function Restarted(c: Call): Call
    requires c.Holding?
  {
    c.(attempt := if c.memo.Some? then Consuming(c.memo.value, c.memo.value.offset, None) else Fresh)
  }

  function Apply(cfg: T.Config, s: State, step: Step): State {
    if !Enabled(cfg, s, step) then s
    else
      match step
      case Call(m) => s.(calls := s.calls + [Queued(m)])
      case CloseParent => s.(closed := true)
      case ChildStep(t) => s.(child := T.Apply(cfg, s.child, t))
      case ChildEnds => s.(childGone := true)
      case PassGate(k, turnOpen) =>
        if s.serving != k then With(s, k, GaveUp)
        else if !turnOpen then Release(s, k, NoActiveTurn)
        else With(s, k, Holding(s.calls[k].message, s.lastConsumed, None, Fresh))
      case Submit(k) => SubmitStep(cfg, s, k)
      case PublishMarker(k) => MarkStep(s, k)
      case BeginReading(k) =>
        var c := s.calls[k];
        With(s, k, c.(attempt := Consuming(c.attempt.p, c.attempt.p.offset, None)))
      case RecordMemo(k, o) =>
        var c := s.calls[k];
        With(s, k, c.(memo := Some(c.attempt.p.(offset := o))))
      case ReadItem(k) =>
        var c := s.calls[k];
        With(s, k, c.(attempt := ReadOne(s.child.log, c.attempt)))
      case StreamEnds(k) =>
        var c := s.calls[k];
        With(s, k, c.(attempt := EndOfStream(c.attempt)))
      case Crash(k) => With(s, k, Restarted(s.calls[k]))
      case TimeOut(k) => With(Astray(s, k), k, Restarted(s.calls[k]))
      case Deliver(k, turnOpen) => DeliverStep(s, k, turnOpen)
      case FailOtherwise(k) => FailStep(s, k)
      case CancelWaiter(k) => With(s, k, Cancelled)
      case LateSubmit(k) => AcceptStep(cfg, s, k, s.strays[k].message)
      case LateMarker(k) => TellLate(s, k)
  }

  function Exec(cfg: T.Config, s: State, steps: seq<Step>): State
    decreases |steps|
  {
    if |steps| == 0 then s else Exec(cfg, Apply(cfg, s, steps[0]), steps[1..])
  }

  lemma {:induction false} ExecAppend(cfg: T.Config, s: State, xs: seq<Step>, ys: seq<Step>)
    ensures Exec(cfg, s, xs + ys) == Exec(cfg, Exec(cfg, s, xs), ys)
    decreases |xs|
  {
    if |xs| == 0 {
      assert xs + ys == ys;
    } else {
      assert (xs + ys)[1..] == xs[1..] + ys;
      ExecAppend(cfg, Apply(cfg, s, xs[0]), xs[1..], ys);
    }
  }

  lemma Unroll(cfg: T.Config, s: State, steps: seq<Step>)
    requires |steps| > 0
    ensures Exec(cfg, s, steps) == Exec(cfg, Apply(cfg, s, steps[0]), steps[1..])
  {
  }

  // ---- The gate ------------------------------------------------------------------

  predicate IsDone(c: Call) { c.Done? || c.CutShort? }

  predicate IsWaiting(c: Call) { c.Queued? || c.GaveUp? || c.Cancelled? }

  /** At most one turn holds the gate: exactly the tickets below `serving` have been served, in
      call order, and every later one still waits, gave up, or was cancelled waiting. */
  ghost predicate Gated(s: State) {
    && s.serving <= |s.calls|
    && (forall k :: 0 <= k < s.serving ==> IsDone(s.calls[k]))
    && (forall k :: s.serving < k < |s.calls| ==> IsWaiting(s.calls[k]))
    && (s.serving < |s.calls| ==> !IsDone(s.calls[s.serving]))
    && (forall k :: 0 <= k < |s.calls| && s.calls[k].GaveUp? ==> s.closed)
  }

  /** Whoever holds the gate is the ticket being served. */
  lemma HolderServes(s: State, k: nat)
    requires Gated(s) && k < |s.calls| && s.calls[k].Holding?
    ensures k == s.serving
  {
    assert forall j :: 0 <= j < s.serving ==> IsDone(s.calls[j]) && !s.calls[j].Holding?;
    assert forall j :: s.serving < j < |s.calls| ==> IsWaiting(s.calls[j]) && !s.calls[j].Holding?;
  }

  /** Whoever waits has not been served. */
  lemma WaiterIsAhead(s: State, k: nat)
    requires Gated(s) && k < |s.calls| && s.calls[k].Queued?
    ensures s.serving <= k
  {
    assert forall j :: 0 <= j < s.serving ==> IsDone(s.calls[j]) && !s.calls[j].Queued?;
  }

  lemma GateWith(s: State, k: nat, c: Call)
    requires Gated(s) && s.serving <= k < |s.calls| && !IsDone(c)
    requires match c
             case GaveUp => s.closed
             case Cancelled => true
             case _ => k == s.serving
    ensures Gated(With(s, k, c))
  {
  }

  lemma GateRelease(s: State, k: nat, c: Call)
    requires Gated(s) && k == s.serving < |s.calls| && IsDone(c)
    ensures Gated(ReleaseAs(s, k, c))
  {
    if k + 1 < |s.calls| {
      assert IsWaiting(s.calls[k + 1]);
    }
  }

  lemma GateOther(s: State, t: State)
    requires Gated(s) && t.calls == s.calls && t.serving == s.serving && (s.closed ==> t.closed)
    ensures Gated(t)
  {
  }

  lemma GateCall(s: State, m: Message)
    requires Gated(s)
    ensures Gated(s.(calls := s.calls + [Queued(m)]))
  {
  }

  /** The holder's attempt moves. */
  lemma GateAttempt(s: State, k: nat, c: Call)
    requires Gated(s) && k < |s.calls| && s.calls[k].Holding? && c.Holding?
    ensures Gated(With(s, k, c))
  {
    HolderServes(s, k);
    GateWith(s, k, c);
  }

  lemma GateSubmit(cfg: T.Config, s: State, k: nat)
    requires Gated(s) && k < |s.calls| && s.calls[k].Holding?
    ensures Gated(SubmitStep(cfg, s, k))
  {
    HolderServes(s, k);
    var c := s.calls[k];
    if s.childGone {
      GateRelease(s, k, Done(ChildEnded));
    } else if k in s.accepted {
      GateAttempt(s, k, SentWith(c, s.accepted[k]));
    } else {
      var error := T.Validate(cfg, s.child, c.message);
      if error.Some? {
        GateRelease(s, k, Done(SendRejected(error.value)));
      } else {
        var s1 := AcceptStep(cfg, s, k, c.message);
        GateOther(s, s1);
        GateAttempt(s1, k, SentWith(c, s1.accepted[k]));
      }
    }
  }

  lemma GateMark(s: State, k: nat)
    requires Gated(s) && k < |s.calls| && s.calls[k].Holding? && s.calls[k].attempt.Sent?
    ensures Gated(MarkStep(s, k))
  {
    var c := s.calls[k].(attempt := Marked(s.calls[k].attempt.p));
    GateAttempt(s, k, c);
    GateOther(With(s, k, c), MarkStep(s, k));
  }

  lemma GateFail(s: State, k: nat)
    requires Gated(s) && k < |s.calls| && s.calls[k].Holding?
    ensures Gated(FailStep(s, k))
  {
    HolderServes(s, k);
    GateOther(s, Astray(s, k));
    GateRelease(Astray(s, k), k, CutShort);
  }

  lemma GateRetry(s: State, k: nat)
    requires Gated(s) && k < |s.calls| && s.calls[k].Holding?
    ensures Gated(With(Astray(s, k), k, Restarted(s.calls[k])))
  {
    GateOther(s, Astray(s, k));
    GateAttempt(Astray(s, k), k, Restarted(s.calls[k]));
  }

  lemma GateDeliver(s: State, k: nat, turnOpen: bool)
    requires Gated(s) && k < |s.calls| && s.calls[k].Holding? && s.calls[k].attempt.Over?
    ensures Gated(DeliverStep(s, k, turnOpen))
  {
    HolderServes(s, k);
    var r := if turnOpen then Turn(ResultOf(s.calls[k].attempt.consumed)) else Unclosed;
    GateRelease(s, k, Done(r));
    GateOther(Release(s, k, r), DeliverStep(s, k, turnOpen));
  }

  lemma GatePass(cfg: T.Config, s: State, k: nat, turnOpen: bool)
    requires Gated(s) && Enabled(cfg, s, PassGate(k, turnOpen))
    ensures Gated(Apply(cfg, s, PassGate(k, turnOpen)))
  {
    WaiterIsAhead(s, k);
    if s.serving != k { GateWith(s, k, GaveUp); }
    else if !turnOpen { GateRelease(s, k, Done(NoActiveTurn)); }
    else { GateWith(s, k, Holding(s.calls[k].message, s.lastConsumed, None, Fresh)); }
  }

  /** A step that an attempt makes, or dies by. */
  predicate IsAttempt(step: Step) {
    step.PublishMarker? || step.BeginReading? || step.RecordMemo? || step.ReadItem? || step.StreamEnds? || step.Crash?
    || step.TimeOut?
  }

  lemma GateKeptByAttempt(cfg: T.Config, s: State, step: Step)
    requires Gated(s) && Enabled(cfg, s, step) && IsAttempt(step)
    ensures Gated(Apply(cfg, s, step))
  {
    match step
    case PublishMarker(k) => GateMark(s, k);
    case TimeOut(k) => GateRetry(s, k);
    case Crash(k) => GateAttempt(s, k, Restarted(s.calls[k]));
    case BeginReading(k) => GateAttempt(s, k, Apply(cfg, s, step).calls[k]);
    case RecordMemo(k, _) => GateAttempt(s, k, Apply(cfg, s, step).calls[k]);
    case ReadItem(k) => GateAttempt(s, k, Apply(cfg, s, step).calls[k]);
    case StreamEnds(k) => GateAttempt(s, k, Apply(cfg, s, step).calls[k]);
  }

  lemma GateKept(cfg: T.Config, s: State, step: Step)
    requires Gated(s)
    ensures Gated(Apply(cfg, s, step))
  {
    if !Enabled(cfg, s, step) {
    } else if IsAttempt(step) {
      GateKeptByAttempt(cfg, s, step);
    } else {
      match step
      case Call(m) => GateCall(s, m);
      case PassGate(k, turnOpen) => GatePass(cfg, s, k, turnOpen);
      case Submit(k) => GateSubmit(cfg, s, k);
      case Deliver(k, turnOpen) => GateDeliver(s, k, turnOpen);
      case FailOtherwise(k) => GateFail(s, k);
      case CancelWaiter(k) => WaiterIsAhead(s, k); GateWith(s, k, Cancelled);
      case _ => GateOther(s, Apply(cfg, s, step));
    }
  }

  lemma {:induction false} GateHolds(cfg: T.Config, s: State, steps: seq<Step>)
    requires Gated(s)
    ensures Gated(Exec(cfg, s, steps))
    decreases |steps|
  {
    if |steps| > 0 {
      GateKept(cfg, s, steps[0]);
      GateHolds(cfg, Apply(cfg, s, steps[0]), steps[1..]);
    }
  }

  // ---- Which waiting tickets can still be served ------------------------------------

  /** A ticket nobody will ever release. */
  predicate NeverReleased(c: Call) { c.Cancelled? || c.GaveUp? }

  predicate Blocked(s: State, k: nat) {
    exists j :: s.serving <= j < k && j < |s.calls| && NeverReleased(s.calls[j])
  }

  predicate Served(s: State, k: nat) {
    k < |s.calls| && (s.calls[k].Holding? || IsDone(s.calls[k]))
  }

  /** Its call goes on holding the gate, and other calls do not notice. */
  lemma AttemptElsewhere(cfg: T.Config, s: State, step: Step, j: nat)
    requires Enabled(cfg, s, step) && IsAttempt(step) && j < |s.calls|
    ensures var t := Apply(cfg, s, step);
            && t.serving == s.serving && |t.calls| == |s.calls|
            && (s.calls[j].Holding? ==> t.calls[j].Holding?) && (!s.calls[j].Holding? ==> t.calls[j] == s.calls[j])
  {
  }

  lemma BlockStays(cfg: T.Config, s: State, step: Step, j: nat)
    requires Gated(s) && s.serving <= j < |s.calls| && NeverReleased(s.calls[j])
    ensures var t := Apply(cfg, s, step); t.serving <= j < |t.calls| && t.calls[j] == s.calls[j]
  {
    if !Enabled(cfg, s, step) {
    } else if IsAttempt(step) {
      AttemptElsewhere(cfg, s, step, j);
    } else {
      match step
      case Submit(k) => BlockStaysAtSubmit(cfg, s, k, j);
      case Deliver(k, _) => HolderServes(s, k);
      case FailOtherwise(k) => HolderServes(s, k);
      case _ =>
    }
  }

  lemma BlockStaysAtSubmit(cfg: T.Config, s: State, k: nat, j: nat)
    requires Gated(s) && k < |s.calls| && s.calls[k].Holding?
    requires s.serving <= j < |s.calls| && NeverReleased(s.calls[j])
    ensures var t := SubmitStep(cfg, s, k); t.serving <= j < |t.calls| && t.calls[j] == s.calls[j]
  {
    HolderServes(s, k);
  }

  lemma {:induction false} BlockedForever(cfg: T.Config, s: State, steps: seq<Step>, j: nat, k: nat)
    requires Gated(s) && s.serving <= j < k && j < |s.calls| && NeverReleased(s.calls[j])
    ensures !Served(Exec(cfg, s, steps), k)
    decreases |steps|
  {
    if |steps| > 0 {
      GateKept(cfg, s, steps[0]);
      BlockStays(cfg, s, steps[0], j);
      BlockedForever(cfg, Apply(cfg, s, steps[0]), steps[1..], j, k);
    }
  }

  /** The step that brings the gate one ticket on. */
  function Onward(s: State): Step
    requires s.serving < |s.calls|
  {
    if s.calls[s.serving].Queued? then PassGate(s.serving, false) else FailOtherwise(s.serving)
  }

  lemma OnwardMoves(cfg: T.Config, s: State, k: nat)
    requires Gated(s) && s.serving < k < |s.calls| && s.calls[k].Queued? && !Blocked(s, k)
    ensures var t := Apply(cfg, s, Onward(s));
            Gated(t) && t.serving == s.serving + 1 && |t.calls| == |s.calls| && t.calls[k] == s.calls[k] && !Blocked(t, k)
  {
    assert !NeverReleased(s.calls[s.serving]);
    var t := Apply(cfg, s, Onward(s));
    GateKept(cfg, s, Onward(s));
    assert t.serving == s.serving + 1;
    assert forall j :: s.serving < j < |s.calls| ==> t.calls[j] == s.calls[j];
  }

  lemma {:induction false} UnblockedIsServed(cfg: T.Config, s: State, k: nat) returns (steps: seq<Step>)
    requires Gated(s) && k < |s.calls| && s.calls[k].Queued? && !Blocked(s, k)
    ensures Served(Exec(cfg, s, steps), k)
    decreases k - s.serving
  {
    WaiterIsAhead(s, k);
    if s.serving == k {
      steps := [PassGate(k, true)];
      Unroll(cfg, s, steps);
    } else {
      OnwardMoves(cfg, s, k);
      var more := UnblockedIsServed(cfg, Apply(cfg, s, Onward(s)), k);
      steps := [Onward(s)] + more;
      Unroll(cfg, s, steps);
      assert steps[1..] == more;
    }
  }

  predicate ServesBy(cfg: T.Config, s: State, steps: seq<Step>, k: nat) {
    Served(Exec(cfg, s, steps), k)
  }

  /** A waiting ticket can still be served if and only if no ticket between the one being served
      and it was cancelled, or gave up, while it waited: such a ticket is never released. */
  lemma ServableIff(cfg: T.Config, s: State, k: nat)
    requires Gated(s) && k < |s.calls| && s.calls[k].Queued?
    ensures (exists steps :: ServesBy(cfg, s, steps, k)) <==> !Blocked(s, k)
  {
    if Blocked(s, k) {
      var j :| s.serving <= j < k && j < |s.calls| && NeverReleased(s.calls[j]);
      forall steps
        ensures !ServesBy(cfg, s, steps, k)
      {
        BlockedForever(cfg, s, steps, j, k);
      }
    } else {
      var steps := UnblockedIsServed(cfg, s, k);
      assert ServesBy(cfg, s, steps, k);
    }
  }

  /** Two calls, the first cancelled while it waits: the second is never served, though the parent
      stays open. */
  lemma CancelledTicketBlocks(cfg: T.Config, child: T.State, m: Message)
    ensures var s := Exec(cfg, Start(child), [Step.Call(m), Step.Call(m), CancelWaiter(0)]);
            !s.closed && |s.calls| == 2 && s.calls[1] == Queued(m) && Blocked(s, 1)
  {
    var steps := [Step.Call(m), Step.Call(m), CancelWaiter(0)];
    var s0 := Start(child);
    var s1 := Apply(cfg, s0, steps[0]);
    var s2 := Apply(cfg, s1, steps[1]);
    var s3 := Apply(cfg, s2, steps[2]);
    Unroll(cfg, s0, steps);
    Unroll(cfg, s1, steps[1..]);
    Unroll(cfg, s2, steps[2..]);
    assert Exec(cfg, s3, steps[3..]) == s3;
    assert s2.calls == [Queued(m), Queued(m)];
    assert NeverReleased(s3.calls[0]);
  }
}
