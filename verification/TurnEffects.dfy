/** What each step of the turn protocol does, said of the messages, outcomes and texts that go in and
    the events that come out; and, over whole runs, which step every event came from. */
module TurnEffects {
  import opened Protocol
  import opened TurnGrammar
  import opened TurnMachine
  import opened TurnSafety
  import opened TurnLog
  import opened TurnTheorems

  // ---- Which step an event came from ---------------------------------------------------------

  /** The step may have published the envelope, and the envelope says what the step was given. */
  predicate SaidBy(step: Step, e: Envelope) {
    match e.event
    case MessageAccepted(kind, payload, _) => step == AdmitMessage(Message(kind, payload))
    case MessageHandlerStart => step.Start? && e.messageId == Some(step.m)
    case MessageHandlerEnd(output) => step.Finish? && step.outcome == Replied(output) && e.messageId == Some(step.m)
    case MessageHandlerError(text) => step.Finish? && step.outcome == Failure(text) && e.messageId == Some(step.m)
    case TurnStarted => step.ResumeLoop?
    case TurnEnded => step.Finish?
    case AgentClosed(_) => step.ResumeLoop?
    case SteeringEnqueued(_, text) => step.SteerFrom? && step.text == text && e.messageId == Some(step.m)
    case SteeringClaimed(_) => step.Claim? && !step.inTool && e.messageId == step.claimant
    case SteeringDropped(_) => step.Finish?
    case _ => step == PublishOther(e)
  }

  /** The new part of the log is what the step said. */
  ghost predicate Spoke(s: State, step: Step, t: State) {
    s.log <= t.log && forall n :: |s.log| <= n < |t.log| ==> SaidBy(step, t.log[n])
  }

  lemma AdmitSpoke(cfg: Config, s: State, m: Message)
    ensures Spoke(s, AdmitMessage(m), Admit(cfg, s, m).0)
  {
  }

  lemma EndSpoke(s: State, m: Uuid, o: Outcome)
    requires m in s.tasks
    ensures Spoke(s, Finish(m, o), EndTask(s, m, o))
  {
  }

  lemma BracketSpoke(s: State, turnId: Uuid, n: nat, m: Uuid, o: Outcome)
    ensures Spoke(s, Finish(m, o), CloseBracket(s, turnId, n))
  {
  }

  lemma SpokeOn(s: State, step: Step, t: State, u: State)
    requires Spoke(s, step, t) && Spoke(t, step, u)
    ensures Spoke(s, step, u)
  {
    assert forall n :: |s.log| <= n < |t.log| ==> u.log[n] == t.log[n];
  }

  lemma FinishSpoke(s: State, m: Uuid, o: Outcome)
    requires m in s.tasks
    ensures Spoke(s, Finish(m, o), FinishParticipant(s, m, o))
  {
    var a := s.tasks[m].admission;
    var s1 := LeaveTurn(EndTask(s, m, o));
    EndSpoke(s, m, o);
    if !s1.TurnActive() {
      BracketSpoke(s1, a.turnId, a.turnNumber, m, o);
      SpokeOn(s, Finish(m, o), s1, FinishParticipant(s, m, o));
    }
  }

  lemma ResumeSpoke(cfg: Config, s: State)
    ensures Spoke(s, ResumeLoop, Resume(cfg, s))
  {
  }

  lemma StepSpoke(cfg: Config, s: State, step: Step)
    requires Enabled(s, step)
    ensures Spoke(s, step, Apply(cfg, s, step))
  {
    match step
    case AdmitMessage(m) => AdmitSpoke(cfg, s, m);
    case Finish(m, o) => FinishSpoke(s, m, o);
    case ResumeLoop => ResumeSpoke(cfg, s);
    case Start(_) => OneEventSpoke(cfg, s, step);
    case SteerFrom(_, _) => OneEventSpoke(cfg, s, step);
    case Claim(_, _) => OneEventSpoke(cfg, s, step);
    case PublishOther(_) => OneEventSpoke(cfg, s, step);
    case _ => SilentSpoke(cfg, s, step);
  }

  lemma OneEventSpoke(cfg: Config, s: State, step: Step)
    requires Enabled(s, step) && (step.Start? || step.SteerFrom? || step.Claim? || step.PublishOther?)
    ensures Spoke(s, step, Apply(cfg, s, step))
  {
  }

  lemma SilentSpoke(cfg: Config, s: State, step: Step)
    requires Enabled(s, step)
    requires step.CloseSignal? || step.StartLoop? || step.FireWait? || step.FireTimer? || step.Abandon? || step.Lose?
    ensures Apply(cfg, s, step).log == s.log
  {
  }

  /** Step `i` of the run published position `n` of the log. */
  ghost predicate PublishedAt(cfg: Config, steps: seq<Step>, i: nat, n: nat) {
    && i < |steps|
    && var s := Exec(cfg, INIT, steps[..i]);
       Enabled(s, steps[i]) && |s.log| <= n < |Apply(cfg, s, steps[i]).log|
  }

  lemma OneMore(cfg: Config, steps: seq<Step>)
    requires |steps| > 0
    ensures var k := |steps| - 1; Exec(cfg, INIT, steps) == Apply(cfg, Exec(cfg, INIT, steps[..k]), steps[k])
  {
    var k := |steps| - 1;
    assert steps == steps[..k] + [steps[k]];
    ExecAppend(cfg, INIT, steps[..k], [steps[k]]);
    var s := Exec(cfg, INIT, steps[..k]);
    assert Exec(cfg, s, [steps[k]]) == Exec(cfg, Apply(cfg, s, steps[k]), []);
  }

  /** Every event of every run was published by a step that was given just what the event says: a
      terminal by the end of that message's handler with that outcome, an acceptance by the
      admission of that message, steering by the call with that text. */
  lemma {:induction false} EveryEventHasItsStep(cfg: Config, steps: seq<Step>, n: nat) returns (i: nat)
    requires n < |Exec(cfg, INIT, steps).log|
    ensures PublishedAt(cfg, steps, i, n) && SaidBy(steps[i], Exec(cfg, INIT, steps).log[n])
    decreases |steps|
  {
    var k := |steps| - 1;
    var before := steps[..k];
    var s := Exec(cfg, INIT, before);
    OneMore(cfg, steps);
    RunKeeps(cfg, INIT, before);
    if n < |s.log| {
      LogGrowsByStep(cfg, s, steps[k]);
      i := EveryEventHasItsStep(cfg, before, n);
      assert before[..i] == steps[..i];
    } else {
      i := k;
      StepSpoke(cfg, s, steps[k]);
    }
  }

  // ---- The end of a participant ----------------------------------------------------------------

  /** What a handler's end publishes first: its message's own terminal, under its own turn; the
      reply's output when it replied, the exception's text when it raised. */
  lemma FinishSays(cfg: Config, s: State, m: Uuid, o: Outcome)
    requires Inv(s) && m in s.tasks && s.tasks[m].started
    ensures var t := Apply(cfg, s, Finish(m, o));
            && |s.log| < |t.log|
            && var e := t.log[|s.log|];
               && e.messageId == Some(m) && e.turnId == s.currentTurnId && e.turnNumber == s.currentTurn
               && e.turnId == Some(s.tasks[m].admission.turnId) && e.turnNumber == s.tasks[m].admission.turnNumber
               && (forall output :: e.event == MessageHandlerEnd(output) <==> o == Replied(output))
               && (forall text :: e.event == MessageHandlerError(text) <==> o == Failure(text))
  {
    FinishShape(s, m, o);
    assert InTurn(s, s.tasks[m].admission);
  }

  /** So over any run each finished handler's terminal is on the log where it finished, and says
      what it finished with. */
  lemma OutcomesAreTold(cfg: Config, steps: seq<Step>, i: nat, m: Uuid, o: Outcome)
    requires i < |steps| && steps[i] == Finish(m, o) && Enabled(Exec(cfg, INIT, steps[..i]), steps[i])
    ensures var n := |Exec(cfg, INIT, steps[..i]).log|;
            var log := Exec(cfg, INIT, steps).log;
            && n < |log| && log[n].messageId == Some(m)
            && log[n].event == (match o case Replied(output) => MessageHandlerEnd(output) case Failure(text) => MessageHandlerError(text))
  {
    RunKeeps(cfg, INIT, steps[..i]);
    FinishSays(cfg, Exec(cfg, INIT, steps[..i]), m, o);
    LogSince(cfg, steps, i);
  }

  /** What step `i` of a run left on the log stays there. */
  lemma LogSince(cfg: Config, steps: seq<Step>, i: nat)
    requires i < |steps|
    ensures Apply(cfg, Exec(cfg, INIT, steps[..i]), steps[i]).log <= Exec(cfg, INIT, steps).log
  {
    OneMore(cfg, steps[..i + 1]);
    assert steps[..i + 1][..i] == steps[..i];
    assert steps == steps[..i + 1] + steps[i + 1..];
    ExecAppend(cfg, INIT, steps[..i + 1], steps[i + 1..]);
    LogGrows(cfg, Exec(cfg, INIT, steps[..i + 1]), steps[i + 1..]);
  }

  // ---- Admission ----------------------------------------------------------------------------------

  predicate Busy(s: State) { s.participants > 0 || s.pending != [] }

  /** What is refused, and why: the first of the four reasons that applies. */
  lemma AdmissionIff(cfg: Config, s: State, m: Message)
    ensures var known := m.kind in cfg.handlers;
            var fits := known && cfg.handlers[m.kind].accepts(m.payload);
            var refused := fits && cfg.handlers[m.kind].midTurn == REJECT && Busy(s);
            var (t, r) := Admit(cfg, s, m);
            && (r.Accepted? <==> s.closeReason == None && fits && !refused)
            && (r == Rejected(AgentIsClosed) <==> s.closeReason.Some?)
            && (r == Rejected(UnknownFunction) <==> s.closeReason == None && !known)
            && (r == Rejected(MalformedMessage) <==> s.closeReason == None && known && !fits)
            && (r == Rejected(MidTurnRejected) <==> s.closeReason == None && refused)
            && (r.Rejected? ==> t == s)
  {
  }

  /** What an admission writes down: the message itself, under the reply's ids, waiting to join or
      at the end of the queue, and announced on the stream; nothing else of the agent changes. */
  lemma AdmissionKeepsTheMessage(cfg: Config, s: State, m: Message)
    requires Admit(cfg, s, m).1.Accepted?
    ensures var t, r := Admit(cfg, s, m).0, Admit(cfg, s, m).1.reply;
            && r.acceptedOffset == |s.log|
            && t.log == s.log + [Envelope(Some(r.turnId), r.turnNumber, Some(r.messageId),
                                          MessageAccepted(m.kind, m.payload, r.disposition))]
            && s.nextUuid <= r.messageId < t.nextUuid
            && var a := Admission(m, r.turnId, r.turnNumber, r.messageId);
               if r.disposition == JOINED
               then t == s.(log := t.log, nextUuid := t.nextUuid, joining := s.joining + [a], participants := s.participants + 1)
               else r.turnId != r.messageId && s.nextUuid <= r.turnId < t.nextUuid
                    && t == s.(log := t.log, nextUuid := t.nextUuid, pending := s.pending + [a])
  {
  }

  // ---- Every admission still holds the message it was made for -------------------------------------

  predicate AcceptedAs(log: seq<Envelope>, i: nat, a: Admission) {
    && i < |log| && log[i].turnId == Some(a.turnId) && log[i].turnNumber == a.turnNumber
    && log[i].messageId == Some(a.messageId) && log[i].event.MessageAccepted?
    && log[i].event.handler == a.message.kind && log[i].event.payload == a.message.payload
  }

  ghost predicate Announced(log: seq<Envelope>, a: Admission) {
    exists i: nat :: AcceptedAs(log, i, a)
  }

  ghost predicate Carried(s: State) {
    && (forall a <- s.pending :: Announced(s.log, a))
    && (forall a <- s.joining :: Announced(s.log, a))
    && (forall m <- s.tasks :: Announced(s.log, s.tasks[m].admission))
  }

  lemma StillAnnounced(log: seq<Envelope>, log': seq<Envelope>, a: Admission)
    requires log <= log' && Announced(log, a)
    ensures Announced(log', a)
  {
    var i: nat :| AcceptedAs(log, i, a);
    assert AcceptedAs(log', i, a);
  }

  /** No admission that was not there before. */
  ghost predicate NoneNew(s: State, t: State) {
    && (forall a <- t.pending :: a in s.pending)
    && (forall a <- t.joining :: a in s.joining)
    && (forall m <- t.tasks :: Known(s, t.tasks[m].admission))
  }

  ghost predicate Known(s: State, a: Admission) {
    a in s.pending || a in s.joining || exists m :: m in s.tasks && s.tasks[m].admission == a
  }

  lemma MovesKeep(s: State, t: State)
    requires Carried(s) && s.log <= t.log && NoneNew(s, t)
    ensures Carried(t)
  {
    forall a | Known(s, a)
      ensures Announced(t.log, a)
    {
      StillAnnounced(s.log, t.log, a);
    }
  }

  lemma AdmitCarries(cfg: Config, s: State, m: Message)
    requires Carried(s) && Admit(cfg, s, m).1.Accepted?
    ensures Carried(Admit(cfg, s, m).0)
  {
    AdmissionKeepsTheMessage(cfg, s, m);
    var t, r := Admit(cfg, s, m).0, Admit(cfg, s, m).1.reply;
    var a := Admission(m, r.turnId, r.turnNumber, r.messageId);
    assert AcceptedAs(t.log, |s.log|, a);
    forall x | Known(s, x)
      ensures Announced(t.log, x)
    {
      StillAnnounced(s.log, t.log, x);
    }
  }

  lemma ResumeMoves(cfg: Config, s: State)
    requires Inv(s) && Enabled(s, ResumeLoop)
    ensures NoneNew(s, Resume(cfg, s))
  {
    if !s.loop.Drained? && !CloseIfIdle(s).closed {
      SpawnAllGrows(s.tasks, s.joining);
      var t := Resume(cfg, s);
      forall m | m in t.tasks
        ensures Known(s, t.tasks[m].admission)
      {
      }
    }
  }

  lemma FinishMoves(s: State, m: Uuid, o: Outcome)
    requires Inv(s) && m in s.tasks
    ensures NoneNew(s, FinishParticipant(s, m, o))
  {
    FinishShape(s, m, o);
  }

  lemma StepCarries(cfg: Config, s: State, step: Step)
    requires Inv(s) && Carried(s) && Enabled(s, step)
    ensures Carried(Apply(cfg, s, step))
  {
    if step.AdmitMessage? {
      if Admit(cfg, s, step.message).1.Accepted? {
        AdmitCarries(cfg, s, step.message);
      }
    } else {
      LogGrowsByStep(cfg, s, step);
      StepMoves(cfg, s, step);
      MovesKeep(s, Apply(cfg, s, step));
    }
  }

  lemma StepMoves(cfg: Config, s: State, step: Step)
    requires Inv(s) && Enabled(s, step) && !step.AdmitMessage?
    ensures NoneNew(s, Apply(cfg, s, step))
  {
    match step
    case ResumeLoop => ResumeMoves(cfg, s);
    case Finish(m, o) => FinishMoves(s, m, o);
    case Start(m) => StartMoves(s, m);
    case Abandon(m) =>
    case Lose(m) =>
    case _ => NothingMoves(cfg, s, step);
  }

  lemma StartMoves(s: State, m: Uuid)
    requires m in s.tasks
    ensures NoneNew(s, StartParticipant(s, m))
  {
  }

  lemma NothingMoves(cfg: Config, s: State, step: Step)
    requires Enabled(s, step)
    requires step.CloseSignal? || step.StartLoop? || step.FireWait? || step.FireTimer? || step.SteerFrom? || step.Claim?
             || step.PublishOther?
    ensures var t := Apply(cfg, s, step); t.pending == s.pending && t.joining == s.joining && t.tasks == s.tasks
  {
  }

  lemma {:induction false} RunCarries(cfg: Config, s: State, steps: seq<Step>)
    requires Inv(s) && Carried(s)
    ensures Carried(Exec(cfg, s, steps))
    decreases |steps|
  {
    if |steps| > 0 {
      StepKeeps(cfg, s, steps[0]);
      if Enabled(s, steps[0]) {
        StepCarries(cfg, s, steps[0]);
      }
      RunCarries(cfg, Apply(cfg, s, steps[0]), steps[1..]);
    }
  }

  /** In every run, whatever waits in the queue, waits to join, or runs as a participant is the very
      message that was accepted on the stream under its id, its turn and its number. */
  lemma MessagesAreCarried(cfg: Config, steps: seq<Step>)
    ensures var s := Exec(cfg, INIT, steps);
            && (forall a <- s.pending :: Announced(s.log, a))
            && (forall a <- s.joining :: Announced(s.log, a))
            && (forall m <- s.tasks :: Announced(s.log, s.tasks[m].admission) && s.tasks[m].admission.messageId == m)
  {
    RunCarries(cfg, INIT, steps);
    RunKeeps(cfg, INIT, steps);
  }

  // ---- Steering --------------------------------------------------------------------------------------

  /** The text is queued for the message that steers, last, under a new id; and it is what is
      announced under that id when a turn is open. */
  lemma SteerSays(cfg: Config, s: State, m: Uuid, text: string)
    ensures var t := Apply(cfg, s, SteerFrom(m, text));
            && t.steering == s.steering + [SteeringMessage(s.nextUuid, m, text)] && t.nextUuid > s.nextUuid
            && t == s.(steering := t.steering, nextUuid := t.nextUuid, log := t.log)
            && (s.currentTurnId.None? ==> t.log == s.log)
            && (s.currentTurnId.Some? ==>
                  t.log == s.log + [Envelope(s.currentTurnId, s.currentTurn, Some(m), SteeringEnqueued(s.nextUuid, text))])
  {
  }

  // ---- The loop ----------------------------------------------------------------------------------------

  /** The wait that is chosen for `t`: the drain once closed; without an idle timeout a wait with no
      clock; with one, the clock runs exactly while the agent is idle. */
  predicate WaitChosen(cfg: Config, t: State) {
    && (t.closed <==> t.loop.Draining?)
    && (!t.closed ==> t.loop.Parked?)
    && (t.loop.Parked? ==>
          && (t.loop.mode.ForWork? <==> !cfg.closeAfterIdle)
          && (t.loop.mode.ForWorkOrTimer? <==> cfg.closeAfterIdle && !Busy(t) && t.joining == []))
  }

  lemma LoopEnters(cfg: Config, s: State)
    requires s.loop.NotStarted?
    ensures var t := Apply(cfg, s, StartLoop); WaitChosen(cfg, t) && t == s.(loop := t.loop)
  {
  }

  /** When each wait is over. */
  lemma WakesIff(cfg: Config, s: State)
    ensures var work := (s.pending != [] && s.participants == 0) || s.joining != [] || s.closed;
            && (s.loop == Parked(ForWork) ==> (Enabled(s, FireWait) <==> work))
            && (s.loop == Parked(ForWorkOrTimer) ==> (Enabled(s, FireWait) <==> work))
            && (s.loop == Parked(ForWorkOrIdle) ==> (Enabled(s, FireWait) <==> work || (!Busy(s) && s.joining == [])))
            && (s.loop == Draining ==> (Enabled(s, FireWait) <==> s.participants == 0))
            && (Enabled(s, FireTimer) <==> s.loop == Parked(ForWorkOrTimer))
  {
  }

  /** One pass of the loop over an open agent: the idle timeout closes it exactly if it is idle then. */
  lemma IdleTimeoutCloses(cfg: Config, s: State)
    requires Inv(s) && Enabled(s, ResumeLoop) && !s.loop.Drained? && !s.closed
    ensures var t := Apply(cfg, s, ResumeLoop);
            var expired := s.loop == TimedOut && !Busy(s) && s.joining == [];
            && WaitChosen(cfg, t) && (t.closed <==> expired)
            && (expired ==> t == s.(loop := Draining, closed := true, closeReason := Some(IDLE_TIMEOUT_EXPIRED)))
  {
  }

  /** Otherwise every waiting join is spawned, those who run stay, and the head of the queue opens a
      turn exactly if nobody is in one, announced under its own id and number with no message. */
  lemma LoopPasses(cfg: Config, s: State)
    requires Inv(s) && Enabled(s, ResumeLoop) && !s.loop.Drained? && !s.closed
    requires !(s.loop == TimedOut && !Busy(s) && s.joining == [])
    ensures var t := Apply(cfg, s, ResumeLoop);
            && !t.closed && t.joining == []
            && (forall a <- s.joining :: a.messageId in t.tasks && t.tasks[a.messageId] == Participant(a, true, false))
            && (forall m <- s.tasks :: m in t.tasks && t.tasks[m] == s.tasks[m])
            && (s.pending != [] && s.participants == 0 ==>
                  var a := s.pending[0];
                  && t.pending == s.pending[1..] && t.currentTurn == s.currentTurn + 1 && t.currentTurnId == Some(a.turnId)
                  && t.participants == 1 && a.messageId in t.tasks && t.tasks[a.messageId] == Participant(a, false, false)
                  && t.log == s.log + [Envelope(Some(a.turnId), a.turnNumber, None, TurnStarted)])
            && (!(s.pending != [] && s.participants == 0) ==>
                  t.pending == s.pending && t.currentTurnId == s.currentTurnId && t.participants == s.participants && t.log == s.log)
  {
    SpawnAllGrows(s.tasks, s.joining);
    if s.participants == 0 {
      assert s.joining == [] && |s.tasks| == 0;
    }
  }

  /** A close stops admission at once and keeps the first reason. */
  lemma CloseSays(cfg: Config, s: State)
    ensures var t := Apply(cfg, s, CloseSignal);
            t == s.(closed := true, closeReason := if s.closeReason.Some? then s.closeReason else Some(REQUESTED))
  {
  }
}
