/** The promises of the turn protocol over whole runs. */
module TurnTheorems {
  import opened Protocol
  import opened TurnGrammar
  import opened TurnMachine
  import opened TurnSafety
  import opened TurnLog

  // ---- The log only grows ----------------------------------------------------------

  lemma {:induction false} LogGrows(cfg: Config, s: State, steps: seq<Step>)
    ensures s.log <= Exec(cfg, s, steps).log
    ensures s.abandoned ==> Exec(cfg, s, steps).abandoned
    decreases |steps|
  {
    if |steps| > 0 {
      LogGrowsByStep(cfg, s, steps[0]);
      LogGrows(cfg, Apply(cfg, s, steps[0]), steps[1..]);
    }
  }

  lemma LogGrowsByStep(cfg: Config, s: State, step: Step)
    ensures s.log <= Apply(cfg, s, step).log
    ensures s.abandoned ==> Apply(cfg, s, step).abandoned
  {
    if Enabled(s, step) {
      match step
      case Finish(m, o) =>
        var s1 := LeaveTurn(EndTask(s, m, o));
        BracketGrows(s1, s.tasks[m].admission.turnId, s.tasks[m].admission.turnNumber);
      case ResumeLoop => ResumeGrows(cfg, s);
      case AdmitMessage(m) => AdmitGrows(cfg, s, m);
      case _ =>
    }
  }

  lemma AdmitGrows(cfg: Config, s: State, m: Message)
    ensures s.log <= Admit(cfg, s, m).0.log && Admit(cfg, s, m).0.abandoned == s.abandoned
  {
  }

  lemma BracketGrows(s: State, turnId: Uuid, turnNumber: nat)
    ensures s.log <= CloseBracket(s, turnId, turnNumber).log
    ensures CloseBracket(s, turnId, turnNumber).abandoned == s.abandoned
  {
  }

  lemma ResumeGrows(cfg: Config, s: State)
    ensures s.log <= Resume(cfg, s).log && Resume(cfg, s).abandoned == s.abandoned
  {
  }

  // ---- Admission: dispositions, reserved slots, offsets ------------------------------

  /** Which disposition an admitted message gets. A handler that refuses mid-turn arrival is
      only ever admitted by an idle agent with an empty queue. An ACCEPT handler is queued
      exactly when no turn is open but messages wait for one. */
  lemma Dispositions(cfg: Config, s: State, m: Message)
    requires Inv(s) && Validate(cfg, s, m).None?
    ensures var d := ReplyTo(cfg, s, m).disposition;
            var mode := cfg.handlers[m.kind].midTurn;
            && (d.OPENED? <==> !s.HasPendingWork())
            && (d.JOINED? <==> mode.ACCEPT? && s.TurnActive())
            && (mode.REJECT? ==> d.OPENED? && s.pending == [] && s.currentTurnId.None?)
            && (mode.ACCEPT? ==> (d.QUEUED? <==> s.currentTurnId.None? && s.pending != []))
  {
  }

  /** An ACCEPT message can be QUEUED: two of them admitted before the loop first wakes. */
  lemma AcceptCanQueue(cfg: Config, m: Message)
    requires m.kind in cfg.handlers && cfg.handlers[m.kind].midTurn.ACCEPT? && cfg.handlers[m.kind].accepts(m.payload)
    ensures var s := Exec(cfg, INIT, [AdmitMessage(m)]);
            Admit(cfg, s, m).1.Accepted? && Admit(cfg, s, m).1.reply.disposition == QUEUED
  {
    assert Exec(cfg, INIT, [AdmitMessage(m)]) == Exec(cfg, Apply(cfg, INIT, AdmitMessage(m)), []);
  }

  /** The status query numbers queued messages by position; the sender was told the same. */
  function StatusNumbers(s: State): (numbers: seq<nat>)
    ensures |numbers| == |s.pending|
  {
    seq(|s.pending|, i requires 0 <= i < |s.pending| => s.currentTurn + i + 1)
  }

  lemma StatusAgrees(cfg: Config, steps: seq<Step>, i: nat)
    requires i < |Exec(cfg, INIT, steps).pending|
    ensures var s := Exec(cfg, INIT, steps);
            StatusNumbers(s)[i] == s.pending[i].turnNumber
  {
    RunKeeps(cfg, INIT, steps);
  }

  /** The acceptance is in the log of every continuation, at the reply's offset. */
  lemma AcceptanceStays(cfg: Config, s: State, m: Message, more: seq<Step>)
    requires Inv(s) && LogInv(s) && Validate(cfg, s, m).None?
    ensures var reply := ReplyTo(cfg, s, m);
            var t := Exec(cfg, AdmitValid(cfg, s, m), more);
            !t.abandoned ==>
              && Grammatical(t.log)
              && Accepts(t.log, reply.acceptedOffset, reply.messageId)
              && t.log[reply.acceptedOffset] == Envelope(Some(reply.turnId), reply.turnNumber, Some(reply.messageId),
                                                          MessageAccepted(m.kind, m.payload, reply.disposition))
  {
    var s' := AdmitValid(cfg, s, m);
    LogGrows(cfg, s', more);
    AdmitKeeps(cfg, s, m);
    AdmissionLogged(cfg, s, m);
    RunLogged(cfg, s', more);
    AcceptancePublished(cfg, s, m);
    assert Exec(cfg, s', more).log[|s.log|] == s'.log[|s.log|];
  }

  lemma AcceptancePublished(cfg: Config, s: State, m: Message)
    requires Validate(cfg, s, m).None?
    ensures var reply := ReplyTo(cfg, s, m);
            && reply.acceptedOffset == |s.log|
            && AdmitValid(cfg, s, m).log
               == s.log + [Envelope(Some(reply.turnId), reply.turnNumber, Some(reply.messageId),
                                    MessageAccepted(m.kind, m.payload, reply.disposition))]
  {
  }

  lemma AdmissionLogged(cfg: Config, s: State, m: Message)
    requires Inv(s) && LogInv(s) && Validate(cfg, s, m).None?
    ensures LogInv(AdmitValid(cfg, s, m))
  {
    StepLogged(cfg, s, AdmitMessage(m));
  }

  /** What the disposition of an accepted message says of the place of its turn's start. */
  ghost predicate StartsAsTold(log: seq<Envelope>, reply: Reply) {
    && (!reply.disposition.JOINED? ==>
          forall x: nat :: Opens(log, x) && log[x].turnId == Some(reply.turnId)
                           ==> reply.acceptedOffset < x && log[x].turnNumber == reply.turnNumber)
    && (reply.disposition.JOINED? ==>
          && (exists x: nat :: x < reply.acceptedOffset && Opens(log, x) && log[x].turnId == Some(reply.turnId))
          && (forall x: nat :: Opens(log, x) && log[x].turnId == Some(reply.turnId) ==> x < reply.acceptedOffset))
  }

  lemma AcceptedStartsAsTold(log: seq<Envelope>, reply: Reply)
    requires Grammatical(log) && Accepts(log, reply.acceptedOffset, reply.messageId)
    requires var e := log[reply.acceptedOffset];
             e.turnId == Some(reply.turnId) && e.turnNumber == reply.turnNumber && e.event.disposition == reply.disposition
    ensures StartsAsTold(log, reply)
  {
    OffsetContract(log, reply.acceptedOffset, reply.messageId);
    if !reply.disposition.JOINED? {
      forall x: nat | Opens(log, x) && log[x].turnId == Some(reply.turnId)
        ensures log[x].turnNumber == reply.turnNumber
      {
        OpensAsPromised(log, reply.acceptedOffset, reply.messageId, x);
      }
    }
  }

  /** `message_accepted` lies exactly at the reply's offset and says what the reply says; from
      then on, in every continuation, the turn's `turn_started` can only lie on the side of
      it that the disposition says. A caller that skips forward from the offset to that
      event can therefore be served exactly when it did not join. */
  lemma ReplyOffset(cfg: Config, s: State, m: Message, more: seq<Step>)
    requires Inv(s) && LogInv(s) && Validate(cfg, s, m).None?
    ensures var reply := ReplyTo(cfg, s, m);
            var t := Exec(cfg, AdmitValid(cfg, s, m), more);
            !t.abandoned ==>
              && Grammatical(t.log)
              && Accepts(t.log, reply.acceptedOffset, reply.messageId)
              && t.log[reply.acceptedOffset] == Envelope(Some(reply.turnId), reply.turnNumber, Some(reply.messageId),
                                                          MessageAccepted(m.kind, m.payload, reply.disposition))
              && StartsAsTold(t.log, reply)
  {
    var t := Exec(cfg, AdmitValid(cfg, s, m), more);
    AcceptanceStays(cfg, s, m, more);
    if !t.abandoned {
      AcceptedStartsAsTold(t.log, ReplyTo(cfg, s, m));
    }
  }

  // ---- Closing -------------------------------------------------------------------------

  ghost predicate NoMoreWork(s: State, t: State) {
    && t.closed && t.closeReason == s.closeReason && t.pending == s.pending
    && s.log <= t.log
    && (forall x :: |s.log| <= x < |t.log| ==> !t.log[x].event.MessageAccepted? && !t.log[x].event.TurnStarted?)
  }

  lemma ClosedByStep(cfg: Config, s: State, step: Step)
    requires Inv(s) && s.closed
    ensures NoMoreWork(s, Apply(cfg, s, step)) && Apply(cfg, s, step).joining == s.joining
  {
    if Enabled(s, step) {
      match step
      case Finish(m, o) => FinishAfterClose(s, m, o);
      case ResumeLoop => ResumeAfterClose(cfg, s);
      case _ =>
    }
  }

  lemma FinishAfterClose(s: State, m: Uuid, o: Outcome)
    requires Inv(s) && s.closed && m in s.tasks
    ensures NoMoreWork(s, FinishParticipant(s, m, o)) && FinishParticipant(s, m, o).joining == s.joining
  {
    FinishShape(s, m, o);
  }

  lemma ResumeAfterClose(cfg: Config, s: State)
    requires Inv(s) && s.closed
    ensures NoMoreWork(s, Resume(cfg, s)) && Resume(cfg, s).joining == s.joining
  {
  }

  /** The first close reason sticks; afterwards nothing is admitted, no turn opens, and what
      was queued stays queued. */
  lemma {:induction false} ClosedForGood(cfg: Config, s: State, steps: seq<Step>)
    requires Inv(s) && s.closed
    ensures NoMoreWork(s, Exec(cfg, s, steps)) && Exec(cfg, s, steps).joining == s.joining
    decreases |steps|
  {
    if |steps| > 0 {
      var s1 := Apply(cfg, s, steps[0]);
      ClosedByStep(cfg, s, steps[0]);
      StepKeeps(cfg, s, steps[0]);
      ClosedForGood(cfg, s1, steps[1..]);
      var t := Exec(cfg, s1, steps[1..]);
      forall x | |s.log| <= x < |t.log|
        ensures !t.log[x].event.MessageAccepted? && !t.log[x].event.TurnStarted?
      {
        if x < |s1.log| {
          assert t.log[x] == s1.log[x];
        }
      }
    }
  }

  lemma NobodyLeft(s: State)
    requires Inv(s) && s.participants == 0
    ensures s.tasks == map[] && s.joining == [] && s.lost == {}
  {
    assert |s.tasks| == 0 && |s.lost| == 0;
  }

  /** When nothing is queued, joining or running, whatever was accepted is finished and no
      turn is open. */
  lemma QuietMeansFinished(s: State, a: nat, m: Uuid)
    requires Inv(s) && LogInv(s) && !s.abandoned && s.Idle() && Accepts(s.log, a, m)
    ensures m in At(s.log, |s.log|).messages && At(s.log, |s.log|).messages[m].phase == Finished
    ensures At(s.log, |s.log|).open.None?
  {
    NobodyLeft(s);
    assert s.log[..|s.log|] == s.log;
    AtSteps(s.log, a);
    ReadingGrows(s.log, a + 1, |s.log|);
  }

  /** A finished message of a log with no turn open has its bracket closed after it. */
  lemma FinishedAndClosed(log: seq<Envelope>, a: nat, m: Uuid) returns (t: nat, e: nat)
    requires Grammatical(log) && Accepts(log, a, m) && m in At(log, |log|).messages
    requires At(log, |log|).messages[m].phase == Finished && At(log, |log|).open.None?
    ensures a < t < e && Terminates(log, t, m) && Ends(log, e) && log[e].turnId == log[a].turnId
  {
    t := FinishedSince(log, |log|, m);
    AtSteps(log, t);
    e := EndBetween(log, t + 1, |log|);
    var a', b := MessageLife(log, t, m);
    assert a' == a;
  }

  /** An idle-timeout close loses nothing: every message ever accepted has its terminal, and
      its turn has its `turn_end` after that. */
  lemma IdleCloseLosesNothing(cfg: Config, steps: seq<Step>, a: nat, m: Uuid) returns (t: nat, e: nat)
    requires !Exec(cfg, INIT, steps).abandoned
    requires Exec(cfg, INIT, steps).closeReason == Some(IDLE_TIMEOUT_EXPIRED)
    requires Accepts(Exec(cfg, INIT, steps).log, a, m)
    ensures var log := Exec(cfg, INIT, steps).log;
            a < t < e && Terminates(log, t, m) && Ends(log, e) && log[e].turnId == log[a].turnId
  {
    RunLogged(cfg, INIT, steps);
    var s := Exec(cfg, INIT, steps);
    QuietMeansFinished(s, a, m);
    t, e := FinishedAndClosed(s.log, a, m);
  }

  /** A requested close drops exactly what was queued: when the loop has returned, every
      accepted message is finished or was still waiting for a turn of its own. */
  lemma ReturnedLosesOnlyQueued(cfg: Config, steps: seq<Step>, m: Uuid)
    requires var s := Exec(cfg, INIT, steps);
             s.loop.Returned? && !s.abandoned && Grammatical(s.log) && m in Scan(s.log).value.messages
    ensures var s := Exec(cfg, INIT, steps);
            (Scan(s.log).value.messages[m].phase == Finished) != Queued(s, m)
  {
    var s := Exec(cfg, INIT, steps);
    RunLogged(cfg, INIT, steps);
    NobodyLeft(s);
    assert PendingAgree(s, Scan(s.log).value);
  }

  // ---- Draining: the loop can return exactly when no join was left waiting ---------------

  /** Somebody is counted who will never leave. */
  predicate Stuck(s: State) {
    s.joining != [] || s.lost != {}
  }

  /** A join still waiting when the loop saw the close is counted but never spawned, and a
      participant that was lost has gone without leaving: the drain never ends,
      whatever happens next. */
  lemma {:induction false} StuckForever(cfg: Config, s: State, steps: seq<Step>)
    requires Inv(s) && s.loop.Draining? && Stuck(s)
    ensures Exec(cfg, s, steps).loop.Draining?
    decreases |steps|
  {
    if |steps| > 0 {
      ClosedByStep(cfg, s, steps[0]);
      LostByStep(cfg, s, steps[0]);
      StepKeeps(cfg, s, steps[0]);
      DrainStays(cfg, s, steps[0]);
      StuckForever(cfg, Apply(cfg, s, steps[0]), steps[1..]);
    }
  }

  lemma DrainStays(cfg: Config, s: State, step: Step)
    requires Inv(s) && s.loop.Draining? && (Stuck(s) || !step.FireWait?)
    ensures Apply(cfg, s, step).loop.Draining?
  {
    if Enabled(s, step) && step.Finish? {
      FinishShape(s, step.m, step.outcome);
    }
  }

  /** The steps that finish one participant. */
  function Complete(s: State, m: Uuid): seq<Step>
    requires m in s.tasks
  {
    (if s.tasks[m].started then [] else [Start(m)]) + [Finish(m, Replied(""))]
  }

  /** One participant fewer; the loop and its queues have not moved. */
  ghost predicate OneFewer(s: State, t: State, m: Uuid) {
    && Inv(t) && t.loop == s.loop && t.closed == s.closed && t.pending == s.pending && t.joining == s.joining
    && t.abandoned == s.abandoned && t.lost == s.lost && t.tasks.Keys == s.tasks.Keys - {m}
  }

  lemma FinishOne(s: State, m: Uuid)
    requires Inv(s) && m in s.tasks
    ensures OneFewer(s, FinishParticipant(s, m, Replied("")), m)
  {
    FinishKeeps(s, m, Replied(""));
    FinishShape(s, m, Replied(""));
  }

  lemma CompleteRuns(cfg: Config, s: State, m: Uuid)
    requires Inv(s) && m in s.tasks
    ensures OneFewer(s, Exec(cfg, s, Complete(s, m)), m)
  {
    var last := [Finish(m, Replied(""))];
    if s.tasks[m].started {
      FinishRuns(cfg, s, m);
      assert Complete(s, m) == last;
    } else {
      FlagsOfStart(cfg, s, m);
      FinishRuns(cfg, StartParticipant(s, m), m);
      StartThenRest(cfg, s, m, last);
      assert Complete(s, m) == [Start(m)] + last;
    }
  }

  lemma FinishRuns(cfg: Config, s: State, m: Uuid)
    requires Inv(s) && m in s.tasks && s.tasks[m].started
    ensures OneFewer(s, Exec(cfg, s, [Finish(m, Replied(""))]), m)
  {
    FinishOne(s, m);
    Unroll(cfg, s, [Finish(m, Replied(""))]);
  }

  lemma StartThenRest(cfg: Config, s: State, m: Uuid, rest: seq<Step>)
    requires m in s.tasks && !s.tasks[m].started
    ensures Exec(cfg, s, [Start(m)] + rest) == Exec(cfg, StartParticipant(s, m), rest)
  {
    assert ([Start(m)] + rest)[1..] == rest;
  }

  lemma FlagsOfStart(cfg: Config, s: State, m: Uuid)
    requires Inv(s) && m in s.tasks
    ensures !s.tasks[m].started ==> Inv(StartParticipant(s, m)) && StartParticipant(s, m).tasks.Keys == s.tasks.Keys
  {
    if !s.tasks[m].started {
      StepKeeps(cfg, s, Start(m));
    }
  }

  lemma {:induction false} DrainCompletes(cfg: Config, s: State) returns (steps: seq<Step>)
    requires Inv(s) && s.loop.Draining? && !Stuck(s)
    ensures Exec(cfg, s, steps).loop.Returned? && Exec(cfg, s, steps).abandoned == s.abandoned
    decreases |s.tasks|
  {
    if s.tasks == map[] {
      steps := [FireWait, ResumeLoop];
      var s1 := Apply(cfg, s, FireWait);
      assert steps[1..] == [ResumeLoop];
      assert Exec(cfg, s1, [ResumeLoop]) == Exec(cfg, Apply(cfg, s1, ResumeLoop), []);
    } else {
      var m :| m in s.tasks;
      CompleteRuns(cfg, s, m);
      var t := Exec(cfg, s, Complete(s, m));
      assert |t.tasks| == |t.tasks.Keys| && |s.tasks| == |s.tasks.Keys|;
      var more := DrainCompletes(cfg, t);
      steps := Complete(s, m) + more;
      ExecAppend(cfg, s, Complete(s, m), more);
    }
  }

  /** The drain can complete if and only if no join is waiting and no participant was lost. */
  lemma DrainCompletesIff(cfg: Config, s: State)
    requires Inv(s) && s.loop.Draining?
    ensures (exists steps :: Exec(cfg, s, steps).loop.Returned?) <==> s.joining == [] && s.lost == {}
  {
    if !Stuck(s) {
      var steps := DrainCompletes(cfg, s);
    } else {
      forall steps
        ensures !Exec(cfg, s, steps).loop.Returned?
      {
        StuckForever(cfg, s, steps);
      }
    }
  }

  /** Such a state is reachable: a join and a close signal reach the loop in one wake. */
  lemma StuckJoinIsReachable(cfg: Config, m: Message) returns (steps: seq<Step>)
    requires m.kind in cfg.handlers && cfg.handlers[m.kind].midTurn.ACCEPT? && cfg.handlers[m.kind].accepts(m.payload)
    requires !cfg.closeAfterIdle
    ensures var s := Exec(cfg, INIT, steps); s.loop.Draining? && s.joining != [] && !s.abandoned
  {
    var first := [StartLoop, AdmitMessage(m), FireWait, ResumeLoop];
    var then_ := [AdmitMessage(m), FireWait, CloseSignal, ResumeLoop];
    FirstTurnOpens(cfg, m);
    var s := Exec(cfg, INIT, first);
    JoinThenClose(cfg, s, m);
    ExecAppend(cfg, INIT, first, then_);
    steps := first + then_;
  }

  lemma FirstTurnOpens(cfg: Config, m: Message)
    requires m.kind in cfg.handlers && cfg.handlers[m.kind].midTurn.ACCEPT? && cfg.handlers[m.kind].accepts(m.payload)
    requires !cfg.closeAfterIdle
    ensures var s := Exec(cfg, INIT, [StartLoop, AdmitMessage(m), FireWait, ResumeLoop]);
            s.TurnActive() && s.loop == Parked(ForWork) && !s.closed && s.closeReason.None? && !s.abandoned
            && 0 in s.tasks && !s.tasks[0].started
  {
    var steps := [StartLoop, AdmitMessage(m), FireWait, ResumeLoop];
    var s1 := Apply(cfg, INIT, StartLoop);
    var s2 := Apply(cfg, s1, AdmitMessage(m));
    assert |s2.pending| == 1 && s2.joining == [] && s2.participants == 0 && s2.loop == Parked(ForWork);
    var s3 := Apply(cfg, s2, FireWait);
    var s4 := Apply(cfg, s3, ResumeLoop);
    assert s4 == LoopBody(cfg, s3);
    assert s2.pending[0].messageId == 0;
    Unroll(cfg, INIT, steps);
    Unroll(cfg, s1, steps[1..]);
    Unroll(cfg, s2, steps[2..]);
    Unroll(cfg, s3, steps[3..]);
    assert Exec(cfg, s4, steps[4..]) == s4;
  }

  lemma JoinThenClose(cfg: Config, s: State, m: Message)
    requires m.kind in cfg.handlers && cfg.handlers[m.kind].midTurn.ACCEPT? && cfg.handlers[m.kind].accepts(m.payload)
    requires s.TurnActive() && s.loop == Parked(ForWork) && !s.closed && s.closeReason.None? && !s.abandoned
    ensures var t := Exec(cfg, s, [AdmitMessage(m), FireWait, CloseSignal, ResumeLoop]);
            t.loop.Draining? && t.joining != [] && !t.abandoned
  {
    var steps := [AdmitMessage(m), FireWait, CloseSignal, ResumeLoop];
    var s1 := Apply(cfg, s, AdmitMessage(m));
    assert s1.joining != [] && s1.loop == Parked(ForWork);
    var s2 := Apply(cfg, s1, FireWait);
    var s3 := Apply(cfg, s2, CloseSignal);
    var s4 := Apply(cfg, s3, ResumeLoop);
    Unroll(cfg, s, steps);
    Unroll(cfg, s1, steps[1..]);
    Unroll(cfg, s2, steps[2..]);
    Unroll(cfg, s3, steps[3..]);
    assert Exec(cfg, s4, steps[4..]) == s4;
  }

  lemma Unroll(cfg: Config, s: State, steps: seq<Step>)
    requires |steps| > 0
    ensures Exec(cfg, s, steps) == Exec(cfg, Apply(cfg, s, steps[0]), steps[1..])
  {
  }

  // ---- Progress while open ----------------------------------------------------------------

  predicate Looping(s: State) {
    !s.closed && (s.loop.Parked? || s.loop.Woken? || s.loop.TimedOut?)
  }

  /** The steps that bring a loop with work to do through its body. */
  function Wake(s: State): seq<Step> {
    if s.loop.Parked? then [FireWait, ResumeLoop] else [ResumeLoop]
  }

  lemma BodyRuns(cfg: Config, s: State)
    requires Inv(s) && Looping(s) && s.HasWork() && !s.loop.Parked?
    ensures var t := Resume(cfg, s);
            && Inv(t) && Looping(t) && t.joining == [] && t.abandoned == s.abandoned && t.lost == s.lost
            && t.pending == if s.CanOpenTurn() then s.pending[1..] else s.pending
  {
    ResumeKeeps(cfg, s);
    assert !s.Idle();
  }

  lemma WakeRuns(cfg: Config, s: State)
    requires Inv(s) && Looping(s) && s.HasWork()
    ensures var t := Exec(cfg, s, Wake(s));
            && Inv(t) && Looping(t) && t.joining == [] && t.abandoned == s.abandoned && t.lost == s.lost
            && t.pending == if s.CanOpenTurn() then s.pending[1..] else s.pending
  {
    var s1 := if s.loop.Parked? then Fire(s) else s;
    if s.loop.Parked? {
      StepKeeps(cfg, s, FireWait);
    }
    WakeIsResume(cfg, s, s1);
    BodyRuns(cfg, s1);
  }

  lemma WakeIsResume(cfg: Config, s: State, s1: State)
    requires Looping(s) && s.HasWork() && s1 == (if s.loop.Parked? then Fire(s) else s)
    ensures Exec(cfg, s, Wake(s)) == Resume(cfg, s1)
  {
    if s.loop.Parked? {
      Unroll(cfg, s, Wake(s));
      assert Wake(s)[1..] == [ResumeLoop];
    }
    Unroll(cfg, s1, [ResumeLoop]);
    assert Exec(cfg, Resume(cfg, s1), []) == Resume(cfg, s1);
  }

  /** From any state of an open agent whose loop is running, wherever its coroutine is parked, and
      with nobody lost: everything queued, joining or running can be finished with the agent
      still open, no message added and nobody torn down. */
  lemma {:induction false} WorkCanFinish(cfg: Config, s: State) returns (steps: seq<Step>)
    requires Inv(s) && Looping(s) && s.lost == {}
    ensures Inv(Exec(cfg, s, steps)) && FinishedOpen(s, Exec(cfg, s, steps))
    ensures forall step <- steps :: !step.AdmitMessage? && !step.CloseSignal? && !step.Abandon?
    decreases |s.pending|, |s.joining|, |s.tasks|
  {
    if s.Idle() {
      return [];
    }
    var first := NextWork(cfg, s);
    var more := WorkCanFinish(cfg, Exec(cfg, s, first));
    steps := first + more;
    ExecAppend(cfg, s, first, more);
  }

  /** Some work is taken up or finished. */
  lemma NextWork(cfg: Config, s: State) returns (steps: seq<Step>)
    requires Inv(s) && Looping(s) && s.lost == {} && !s.Idle()
    ensures var t := Exec(cfg, s, steps);
            && Inv(t) && Looping(t) && t.lost == {} && t.abandoned == s.abandoned
            && (|t.pending| < |s.pending|
                || (|t.pending| == |s.pending| && |t.joining| < |s.joining|)
                || (|t.pending| == |s.pending| && |t.joining| == |s.joining| && |t.tasks| < |s.tasks|))
    ensures forall step <- steps :: !step.AdmitMessage? && !step.CloseSignal? && !step.Abandon?
  {
    if s.joining == [] && s.tasks != map[] {
      var m :| m in s.tasks;
      steps := Complete(s, m);
      CompleteRuns(cfg, s, m);
      FewerTasks(s, Exec(cfg, s, steps), m);
    } else {
      assert |s.lost| == 0 && s.HasWork();
      steps := Wake(s);
      WakeRuns(cfg, s);
    }
  }

  lemma FewerTasks(s: State, t: State, m: Uuid)
    requires m in s.tasks && t.tasks.Keys == s.tasks.Keys - {m}
    ensures |t.tasks| < |s.tasks|
  {
    assert |t.tasks| == |t.tasks.Keys| && |s.tasks| == |s.tasks.Keys|;
  }

  predicate FinishedOpen(s: State, t: State) {
    t.Idle() && Looping(t) && t.abandoned == s.abandoned
  }

  /** Nobody leaves the turn on behalf of a participant that was lost. */
  lemma {:induction false} LostHoldsTheTurn(cfg: Config, s: State, steps: seq<Step>)
    requires Inv(s) && s.lost != {}
    ensures Inv(Exec(cfg, s, steps)) && Exec(cfg, s, steps).participants > 0
    ensures Exec(cfg, s, steps).currentTurnId == s.currentTurnId
    decreases |steps|
  {
    assert |s.lost| > 0;
    if |steps| > 0 {
      StepKeeps(cfg, s, steps[0]);
      LostByStep(cfg, s, steps[0]);
      TurnHeld(cfg, s, steps[0]);
      LostHoldsTheTurn(cfg, Apply(cfg, s, steps[0]), steps[1..]);
    }
  }

  lemma TurnHeld(cfg: Config, s: State, step: Step)
    requires Inv(s) && |s.lost| > 0
    ensures Apply(cfg, s, step).currentTurnId == s.currentTurnId
  {
    if Enabled(s, step) {
      match step
      case AdmitMessage(m) => AdmitHolds(cfg, s, m);
      case ResumeLoop => ResumeHolds(cfg, s);
      case Finish(m, o) => LeaveHolds(s, m); FinishShape(s, m, o);
      case Abandon(m) => LeaveHolds(s, m);
      case _ =>
    }
  }

  lemma AdmitHolds(cfg: Config, s: State, m: Message)
    ensures Admit(cfg, s, m).0.currentTurnId == s.currentTurnId
  {
  }

  lemma ResumeHolds(cfg: Config, s: State)
    requires s.participants > 0
    ensures Resume(cfg, s).currentTurnId == s.currentTurnId
  {
  }

  lemma LeaveHolds(s: State, m: Uuid)
    requires Inv(s) && |s.lost| > 0 && m in s.tasks
    ensures s.participants > 1 && AbandonParticipant(s, m).currentTurnId == s.currentTurnId
  {
    RemoveTask(s.tasks, m);
  }

  /** Work of an open agent can be finished if and only if no participant was lost; if one was,
      its turn stays open in every run and nothing queued ever opens. */
  lemma WorkCanFinishIff(cfg: Config, s: State)
    requires Inv(s) && Looping(s)
    ensures (exists steps :: ReachesRest(cfg, s, steps)) <==> s.lost == {}
  {
    if s.lost == {} {
      var steps := WorkCanFinish(cfg, s);
      assert ReachesRest(cfg, s, steps);
    } else {
      forall steps
        ensures !ReachesRest(cfg, s, steps)
      {
        LostHoldsTheTurn(cfg, s, steps);
      }
    }
  }

  predicate ReachesRest(cfg: Config, s: State, steps: seq<Step>) {
    FinishedOpen(s, Exec(cfg, s, steps))
  }

  /** Such a state is reachable: one message, whose handler returns and whose reply does not
      serialize. */
  lemma LostReplyIsReachable(cfg: Config, m: Message) returns (steps: seq<Step>)
    requires m.kind in cfg.handlers && cfg.handlers[m.kind].midTurn.ACCEPT? && cfg.handlers[m.kind].accepts(m.payload)
    requires !cfg.closeAfterIdle
    ensures var s := Exec(cfg, INIT, steps);
            s.lost != {} && Looping(s) && !s.abandoned && s.participants != |s.joining| + |s.tasks|
  {
    var first := [StartLoop, AdmitMessage(m), FireWait, ResumeLoop];
    FirstTurnOpens(cfg, m);
    RunKeeps(cfg, INIT, first);
    var s := Exec(cfg, INIT, first);
    StartThenLose(cfg, s, 0);
    ExecAppend(cfg, INIT, first, [Start(0), TurnMachine.Lose(0)]);
    steps := first + [Start(0), TurnMachine.Lose(0)];
  }

  lemma StartThenLose(cfg: Config, s: State, p: Uuid)
    requires Inv(s) && p in s.tasks && !s.tasks[p].started
    ensures var t := Exec(cfg, s, [Start(p), TurnMachine.Lose(p)]);
            && t.loop == s.loop && t.closed == s.closed && t.abandoned == s.abandoned
            && p in t.lost && t.participants > |t.joining| + |t.tasks|
  {
    var steps := [Start(p), TurnMachine.Lose(p)];
    var s1 := StartParticipant(s, p);
    Unroll(cfg, s, steps);
    Unroll(cfg, s1, steps[1..]);
    assert Exec(cfg, LoseReply(s1, p), steps[2..]) == LoseReply(s1, p);
    RunKeeps(cfg, s, steps);
    assert |LoseReply(s1, p).lost| > 0;
  }

  /** While the agent is open and nobody was lost, no accepted message is stranded: from any
      such state some run brings its terminal and its turn's end. */
  lemma AcceptedCanFinish(cfg: Config, s: State, a: nat, m: Uuid) returns (steps: seq<Step>, t: nat, e: nat)
    requires Inv(s) && LogInv(s) && !s.abandoned && s.lost == {} && Looping(s) && Accepts(s.log, a, m)
    ensures var log := Exec(cfg, s, steps).log;
            a < t < e && Terminates(log, t, m) && Ends(log, e) && log[e].turnId == log[a].turnId
    ensures Looping(Exec(cfg, s, steps)) && !Exec(cfg, s, steps).abandoned
  {
    steps := WorkCanFinish(cfg, s);
    var u := Exec(cfg, s, steps);
    RunLogged(cfg, s, steps);
    LogGrows(cfg, s, steps);
    assert u.log[a] == s.log[a];
    QuietMeansFinished(u, a, m);
    t, e := FinishedAndClosed(u.log, a, m);
  }

  // ---- The one `agent_closed` ---------------------------------------------------------------

  /** Before the loop returns no `agent_closed` is published; from then on exactly one is, with
      the first close reason, and no turn event follows it. */
  ghost predicate CloseSaid(s: State) {
    if s.loop.Returned? then s.closeReason.Some? && exists c: nat :: ClosesAt(s.log, c, s.closeReason.value)
    else forall x :: 0 <= x < |s.log| ==> !s.log[x].event.AgentClosed?
  }

  ghost predicate ClosesAt(log: seq<Envelope>, c: nat, reason: CloseReason) {
    && c < |log| && log[c].event == AgentClosed(reason)
    && (forall x :: 0 <= x < c ==> !log[x].event.AgentClosed?)
    && (forall x :: c < x < |log| ==> !IsTurnEvent(log[x].event))
  }

  /** Nothing but the loop's own return publishes `agent_closed`, and it publishes nothing else. */
  lemma ReturnsBySaying(cfg: Config, s: State, step: Step)
    requires Inv(s) && !s.loop.Returned? && Apply(cfg, s, step).loop.Returned?
    ensures s.closeReason.Some? && Apply(cfg, s, step).closeReason == s.closeReason
    ensures Apply(cfg, s, step).log == s.log + [Envelope(None, 0, None, AgentClosed(s.closeReason.value))]
  {
    if step.Finish? && Enabled(s, step) {
      FinishShape(s, step.m, step.outcome);
    }
  }

  lemma OthersDoNotSay(cfg: Config, s: State, step: Step)
    requires !Apply(cfg, s, step).loop.Returned?
    ensures SaysNoClose(s.log, Apply(cfg, s, step).log)
  {
    if Enabled(s, step) {
      match step
      case AdmitMessage(m) => AdmitDoesNotSay(cfg, s, m);
      case Finish(m, o) => FinishDoesNotSay(s, m, o);
      case ResumeLoop => BodyDoesNotSay(cfg, s);
      case SteerFrom(m, text) => SteeringDoesNotSay(s, Steer(s, m, text));
      case Claim(t, c) => SteeringDoesNotSay(s, ClaimSteering(s, t, c));
      case Start(m) => OneEvent(s.log, StartParticipant(s, m).log[|s.log|]);
      case PublishOther(e) => OneEvent(s.log, e);
      case _ => assert Apply(cfg, s, step).log == s.log;
    }
  }

  lemma OneEvent(log: seq<Envelope>, e: Envelope)
    requires !e.event.AgentClosed?
    ensures SaysNoClose(log, log + [e])
  {
  }

  lemma AdmitDoesNotSay(cfg: Config, s: State, m: Message)
    ensures SaysNoClose(s.log, Admit(cfg, s, m).0.log)
  {
  }

  lemma SteeringDoesNotSay(s: State, t: State)
    requires t.log == s.log || (|t.log| > 0 && t.log == s.log + [t.log[|t.log| - 1]] && IsSteeringEvent(t.log[|t.log| - 1].event))
    ensures SaysNoClose(s.log, t.log)
  {
  }

  ghost predicate SaysNoClose(log: seq<Envelope>, log': seq<Envelope>) {
    log <= log' && forall x :: |log| <= x < |log'| ==> !log'[x].event.AgentClosed?
  }

  lemma FinishDoesNotSay(s: State, m: Uuid, o: Outcome)
    requires m in s.tasks
    ensures SaysNoClose(s.log, FinishParticipant(s, m, o).log)
  {
  }

  lemma BodyDoesNotSay(cfg: Config, s: State)
    requires !s.loop.Drained?
    ensures SaysNoClose(s.log, Resume(cfg, s).log)
  {
  }

  /** After the return nobody is left to publish a turn event. */
  lemma QuietAfterReturn(cfg: Config, s: State, step: Step)
    requires Inv(s) && s.loop.Returned?
    ensures var t := Apply(cfg, s, step);
            && t.loop.Returned? && t.closeReason == s.closeReason && s.log <= t.log
            && forall x :: |s.log| <= x < |t.log| ==> !IsTurnEvent(t.log[x].event)
  {
    NobodyLeft(s);
  }

  lemma CloseSaidByStep(cfg: Config, s: State, step: Step)
    requires Inv(s) && CloseSaid(s)
    ensures CloseSaid(Apply(cfg, s, step))
  {
    var t := Apply(cfg, s, step);
    if s.loop.Returned? {
      QuietAfterReturn(cfg, s, step);
      var c: nat :| ClosesAt(s.log, c, s.closeReason.value);
      assert ClosesAt(t.log, c, t.closeReason.value);
    } else if t.loop.Returned? {
      ReturnsBySaying(cfg, s, step);
      assert ClosesAt(t.log, |s.log|, t.closeReason.value);
    } else {
      OthersDoNotSay(cfg, s, step);
    }
  }

  lemma {:induction false} RunSaysClose(cfg: Config, s: State, steps: seq<Step>)
    requires Inv(s) && CloseSaid(s)
    ensures CloseSaid(Exec(cfg, s, steps))
    decreases |steps|
  {
    if |steps| > 0 {
      StepKeeps(cfg, s, steps[0]);
      CloseSaidByStep(cfg, s, steps[0]);
      RunSaysClose(cfg, Apply(cfg, s, steps[0]), steps[1..]);
    }
  }

  /** A loop that returned published exactly one `agent_closed`, with the first close reason, and
      it is the last turn event of the log: every completion came before it. Torn-down
      participants change nothing of this. */
  lemma OneAgentClosed(cfg: Config, steps: seq<Step>) returns (c: nat)
    requires Exec(cfg, INIT, steps).loop.Returned?
    ensures var s := Exec(cfg, INIT, steps);
            && s.closeReason.Some?
            && c < |s.log| && s.log[c].event == AgentClosed(s.closeReason.value)
            && (forall x :: 0 <= x < |s.log| && s.log[x].event.AgentClosed? ==> x == c)
            && (forall x :: c < x < |s.log| ==> !IsTurnEvent(s.log[x].event))
  {
    RunSaysClose(cfg, INIT, steps);
    var s := Exec(cfg, INIT, steps);
    c :| ClosesAt(s.log, c, s.closeReason.value);
    assert forall x :: 0 <= x < |s.log| && s.log[x].event.AgentClosed? ==> IsTurnEvent(s.log[x].event);
  }

  // ---- A torn-down participant --------------------------------------------------------------

  /** Tearing down a participant publishes nothing, so the log still shows the turn open. The
      runner agrees with its log about the open turn if and only if somebody else is still
      in it. */
  lemma TeardownAgreesIff(s: State, m: Uuid)
    requires Inv(s) && LogInv(s) && !s.abandoned && m in s.tasks
    ensures var t := AbandonParticipant(s, m);
            && Grammatical(t.log)
            && (t.currentTurnId == Scan(t.log).value.open <==> s.participants > 1)
  {
    RemoveTask(s.tasks, m);
  }

  /** When the last one out was torn down, the next turn opens inside a bracket that was never
      closed: runs with a torn-down participant are rightly outside the grammar. */
  lemma TeardownBreaksNextTurn(s: State, m: Uuid)
    requires Inv(s) && LogInv(s) && !s.abandoned && m in s.tasks && s.participants == 1 && s.pending != []
    ensures !Grammatical(OpenNextTurn(AbandonParticipant(s, m)).log)
  {
    TeardownAgreesIff(s, m);
    var t := OpenNextTurn(AbandonParticipant(s, m));
    ScanAppend(s.log, t.log[|s.log|]);
    assert t.log == s.log + [t.log[|s.log|]];
  }
}
