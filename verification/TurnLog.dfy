/** Every run without an abandoned participant writes a grammatical log, and the runner's
    variables are at every moment exactly what that log says. */
module TurnLog {
  import opened Protocol
  import opened TurnGrammar
  import opened TurnMachine
  import opened TurnSafety

  predicate Joining(s: State, m: Uuid) {
    exists i :: 0 <= i < |s.joining| && s.joining[i].messageId == m
  }

  predicate Queued(s: State, m: Uuid) {
    exists i :: 0 <= i < |s.pending| && s.pending[i].messageId == m
  }

  /** The runner's counters and queues against the acceptor's state. */
  ghost predicate Agrees(s: State, g: Reading) {
    && g.open == s.currentTurnId
    && g.turns == s.currentTurn
    && |g.slots| == s.currentTurn + |s.pending|
    && (g.closed <==> s.loop.Returned?)
    && (forall t <- g.slots :: t < s.nextUuid)
    && (forall m <- g.messages :: m < s.nextUuid)
  }

  ghost predicate PendingAgree(s: State, g: Reading) {
    forall i :: 0 <= i < |s.pending| ==>
      var a := s.pending[i];
      && a.messageId in g.messages
      && g.messages[a.messageId] == Record(a.turnId, a.turnNumber, false, Waiting)
  }

  ghost predicate JoiningAgree(s: State, g: Reading) {
    forall i :: 0 <= i < |s.joining| ==>
      var a := s.joining[i];
      && a.messageId in g.messages
      && g.messages[a.messageId] == Record(a.turnId, a.turnNumber, true, Waiting)
  }

  ghost predicate TasksAgree(s: State, g: Reading) {
    forall m <- s.tasks ::
      var p := s.tasks[m];
      && m in g.messages
      && g.messages[m] == Record(p.admission.turnId, p.admission.turnNumber, p.joined,
                                 if p.started then Running else Waiting)
  }

  /** Whatever was accepted is finished, running, waiting to join, queued, or known to be
      lost. */
  ghost predicate Accounted(s: State, g: Reading) {
    forall m <- g.messages ::
      g.messages[m].phase == Finished || m in s.tasks || Joining(s, m) || Queued(s, m) || m in s.lost
  }

  /** A message whose participant was lost never finishes. */
  ghost predicate LostAgree(s: State, g: Reading) {
    forall m <- s.lost :: m in g.messages && g.messages[m].phase != Finished
  }

  ghost predicate Rel(s: State, g: Reading) {
    Agrees(s, g) && PendingAgree(s, g) && JoiningAgree(s, g) && TasksAgree(s, g) && LostAgree(s, g) && Accounted(s, g)
  }

  ghost predicate LogInv(s: State) {
    !s.abandoned ==> Grammatical(s.log) && Sound(Scan(s.log).value) && Rel(s, Scan(s.log).value)
  }

  // ---- One published envelope ---------------------------------------------------

  /** If the envelope is accepted into `g'` and the new variables agree with `g'`, then the
      invariant is kept. */
  lemma Published(s: State, s': State, e: Envelope, g': Reading)
    requires LogInv(s) && !s.abandoned && s'.log == s.log + [e] && s'.abandoned == s.abandoned
    requires Accept(Scan(s.log).value, e) == Some(g') && Rel(s', g')
    ensures LogInv(s')
  {
    ScanAppend(s.log, e);
    AcceptKeepsSound(Scan(s.log).value, e);
  }

  lemma Unread(s: State, s': State, e: Envelope)
    requires LogInv(s) && s'.log == s.log + [e] && s'.abandoned == s.abandoned && !IsTurnEvent(e.event)
    requires s' == s.(log := s'.log, steering := s'.steering, nextUuid := s'.nextUuid)
    requires s.nextUuid <= s'.nextUuid
    ensures LogInv(s')
  {
    if !s.abandoned {
      var g := Scan(s.log).value;
      assert Accept(g, e) == Some(g);
      assert forall m :: Joining(s, m) <==> Joining(s', m);
      Published(s, s', e, g);
    }
  }

  /** What the acceptor reads of an admission that joins, and of one that reserves a turn. */
  function Joined(s: State, g: Reading): Reading
    requires s.currentTurnId.Some?
  {
    g.(messages := g.messages[s.nextUuid := Record(s.currentTurnId.value, s.currentTurn, true, Waiting)])
  }

  function Reserved(s: State, g: Reading): Reading {
    var number := s.currentTurn + |s.pending| + 1;
    g.(messages := g.messages[s.nextUuid := Record(s.nextUuid + 1, number, false, Waiting)],
       slots := g.slots + [s.nextUuid + 1])
  }

  lemma JoinAgrees(cfg: Config, s: State, m: Message, g: Reading)
    requires Inv(s) && Rel(s, g) && Validate(cfg, s, m).None? && Joins(cfg, s, m)
    ensures Rel(AdmitValid(cfg, s, m), Joined(s, g))
  {
    var s', g' := AdmitValid(cfg, s, m), Joined(s, g);
    assert forall i :: 0 <= i < |s.joining| ==> s'.joining[i] == s.joining[i];
    assert s'.joining[|s.joining|].messageId == s.nextUuid;
    forall n | n in g'.messages
      ensures g'.messages[n].phase == Finished || n in s'.tasks || Joining(s', n) || Queued(s', n) || n in s'.lost
    {
      assert Queued(s, n) <==> Queued(s', n);
      if Joining(s, n) {
        var i :| 0 <= i < |s.joining| && s.joining[i].messageId == n;
        assert s'.joining[i].messageId == n;
      }
    }
  }

  lemma JoinLogged(cfg: Config, s: State, m: Message)
    requires Inv(s) && LogInv(s) && !s.abandoned && Validate(cfg, s, m).None? && Joins(cfg, s, m)
    ensures LogInv(AdmitValid(cfg, s, m))
  {
    var s' := AdmitValid(cfg, s, m);
    var g := Scan(s.log).value;
    assert Accept(g, s'.log[|s.log|]) == Some(Joined(s, g));
    JoinAgrees(cfg, s, m, g);
    Published(s, s', s'.log[|s.log|], Joined(s, g));
  }

  lemma EnqueueAgrees(cfg: Config, s: State, m: Message, g: Reading)
    requires Inv(s) && Rel(s, g) && Validate(cfg, s, m).None? && !Joins(cfg, s, m)
    ensures Rel(AdmitValid(cfg, s, m), Reserved(s, g))
  {
    var s' := AdmitValid(cfg, s, m);
    assert forall i :: 0 <= i < |s.pending| ==> s'.pending[i] == s.pending[i];
    assert forall n :: Joining(s, n) <==> Joining(s', n);
    assert s'.pending[|s.pending|].messageId == s.nextUuid;
    forall n | Queued(s, n)
      ensures Queued(s', n)
    {
      var i :| 0 <= i < |s.pending| && s.pending[i].messageId == n;
      assert s'.pending[i].messageId == n;
    }
  }

  lemma EnqueueAccepted(cfg: Config, s: State, m: Message, g: Reading)
    requires Inv(s) && Rel(s, g) && Validate(cfg, s, m).None? && !Joins(cfg, s, m)
    ensures Accept(g, AdmitValid(cfg, s, m).log[|s.log|]) == Some(Reserved(s, g))
  {
  }

  lemma EnqueueLogged(cfg: Config, s: State, m: Message)
    requires Inv(s) && LogInv(s) && !s.abandoned && Validate(cfg, s, m).None? && !Joins(cfg, s, m)
    ensures LogInv(AdmitValid(cfg, s, m))
  {
    var s' := AdmitValid(cfg, s, m);
    var g := Scan(s.log).value;
    EnqueueAccepted(cfg, s, m, g);
    EnqueueAgrees(cfg, s, m, g);
    Published(s, s', s'.log[|s.log|], Reserved(s, g));
  }

  lemma SpawnLogged(s: State)
    requires Inv(s) && LogInv(s)
    ensures LogInv(SpawnJoins(s))
  {
    SpawnAllGrows(s.tasks, s.joining);
    if !s.abandoned {
      SpawnAgrees(s, Scan(s.log).value);
    }
  }

  lemma SpawnAgrees(s: State, g: Reading)
    requires Inv(s) && Rel(s, g)
    ensures Rel(SpawnJoins(s), g)
  {
    SpawnAllGrows(s.tasks, s.joining);
    var s' := SpawnJoins(s);
    forall m | m in s'.tasks
      ensures m in g.messages && g.messages[m] == Record(s'.tasks[m].admission.turnId, s'.tasks[m].admission.turnNumber,
                s'.tasks[m].joined, if s'.tasks[m].started then Running else Waiting)
    {
      if m !in s.tasks {
        var i :| 0 <= i < |s.joining| && s.joining[i].messageId == m;
      }
    }
  }

  lemma OpenLogged(s: State)
    requires Inv(s) && LogInv(s) && !s.abandoned && s.CanOpenTurn() && !s.closed
    ensures LogInv(OpenNextTurn(s))
  {
    var s' := OpenNextTurn(s);
    var g := Scan(s.log).value;
    var a := s.pending[0];
    var e := s'.log[|s.log|];
    assert |s.tasks| == 0;
    assert s.tasks == map[];
    assert SoundRecord(g, g.messages[a.messageId]);
    var g' := g.(open := Some(a.turnId), turns := g.turns + 1);
    assert Accept(g, e) == Some(g');
    forall i | 0 <= i < |s'.pending|
      ensures var b := s'.pending[i];
        b.messageId in g'.messages && g'.messages[b.messageId] == Record(b.turnId, b.turnNumber, false, Waiting)
    {
      assert s'.pending[i] == s.pending[i + 1];
    }
    forall m | Queued(s, m)
      ensures m == a.messageId || Queued(s', m)
    {
      var i :| 0 <= i < |s.pending| && s.pending[i].messageId == m;
      if i > 0 {
        assert s'.pending[i - 1].messageId == m;
      }
    }
    Published(s, s', e, g');
  }

  lemma StartLogged(s: State, m: Uuid)
    requires Inv(s) && LogInv(s) && !s.abandoned && m in s.tasks && !s.tasks[m].started
    ensures LogInv(StartParticipant(s, m))
  {
    var s' := StartParticipant(s, m);
    var g := Scan(s.log).value;
    var g' := g.(messages := g.messages[m := g.messages[m].(phase := Running)]);
    var e := s'.log[|s.log|];
    assert !g.closed by {
      assert |s.tasks| > 0;
    }
    assert Accept(g, e) == Some(g');
    SameQueues(s, s');
    OtherRecords(s, g, m);
    Published(s, s', e, g');
  }

  lemma SameQueues(s: State, s': State)
    requires s.joining == s'.joining && s.pending == s'.pending
    ensures forall n :: Joining(s, n) <==> Joining(s', n)
    ensures forall n :: Queued(s, n) <==> Queued(s', n)
  {
  }

  /** A spawned participant is neither queued nor waiting to join. */
  lemma OtherRecords(s: State, g: Reading, m: Uuid)
    requires Inv(s) && Rel(s, g) && m in s.tasks
    ensures forall i :: 0 <= i < |s.pending| ==> s.pending[i].messageId != m
    ensures forall i :: 0 <= i < |s.joining| ==> s.joining[i].messageId != m
  {
    assert forall i :: 0 <= i < |s.pending| ==> g.messages[s.pending[i].messageId].turnNumber == s.currentTurn + i + 1;
  }

  function Ended(g: Reading, m: Uuid): Reading
    requires m in g.messages
  {
    g.(messages := g.messages[m := g.messages[m].(phase := Finished)])
  }

  lemma TerminalAgrees(s: State, m: Uuid, e: Envelope, g: Reading)
    requires Inv(s) && Rel(s, g) && m in s.tasks && m in g.messages
    ensures Rel(s.(tasks := s.tasks - {m}, log := s.log + [e]), Ended(g, m))
  {
    SameQueues(s, s.(tasks := s.tasks - {m}, log := s.log + [e]));
    OtherRecords(s, g, m);
  }

  lemma StillRunning(s: State, g: Reading, m: Uuid)
    requires Inv(s) && Rel(s, g) && m in s.tasks
    ensures !g.closed && m in g.messages
  {
    assert |s.tasks| > 0;
  }

  /** The terminal, before anyone leaves. */
  lemma TerminalLogged(s: State, m: Uuid, e: Envelope)
    requires Inv(s) && LogInv(s) && !s.abandoned && m in s.tasks && s.tasks[m].started
    requires IsTerminal(e.event) && e.messageId == Some(m)
    requires e.turnId == Some(s.tasks[m].admission.turnId) && e.turnNumber == s.tasks[m].admission.turnNumber
    ensures LogInv(s.(tasks := s.tasks - {m}, log := s.log + [e]))
  {
    var g := Scan(s.log).value;
    StillRunning(s, g, m);
    assert Accept(g, e) == Some(Ended(g, m));
    TerminalAgrees(s, m, e, g);
    Published(s, s.(tasks := s.tasks - {m}, log := s.log + [e]), e, Ended(g, m));
  }

  /** The bracket closes once nobody is left: every message of the turn is finished. */
  lemma EndLogged(s: State, s': State, e: Envelope)
    requires LogInv(s) && !s.abandoned && s.currentTurnId.Some? && |s.tasks| == 0 && s.joining == [] && s.lost == {}
    requires e == Envelope(s.currentTurnId, s.currentTurn, None, TurnEnded)
    requires s' == s.(log := s.log + [e], participants := s'.participants, currentTurnId := None)
    requires !s.loop.Returned? && SlotsExact(s)
    ensures LogInv(s')
  {
    var g := Scan(s.log).value;
    assert s.tasks == map[];
    assert forall i :: 0 <= i < |s.pending| ==> g.messages[s.pending[i].messageId].turnNumber == s.currentTurn + i + 1;
    forall m | m in g.messages && g.messages[m].turnId == s.currentTurnId.value
      ensures g.messages[m].phase == Finished
    {
      assert SoundRecord(g, g.messages[m]);
    }
    assert Accept(g, e) == Some(g.(open := None));
    SameQueues(s, s');
    Published(s, s', e, g.(open := None));
  }

  lemma BracketLogged(s: State)
    requires LogInv(s) && !s.abandoned && s.currentTurnId.Some? && |s.tasks| == 0 && s.joining == [] && s.lost == {}
    requires !s.loop.Returned? && SlotsExact(s)
    ensures LogInv(CloseBracket(s.(participants := 0, currentTurnId := None), s.currentTurnId.value, s.currentTurn))
  {
    var s1 := s;
    if s.steering != [] {
      s1 := Publish(s.(steering := []), s.currentTurnId, s.currentTurn, None, SteeringDropped(SteeringIds(s.steering)));
      Unread(s, s1, s1.log[|s.log|]);
    }
    var s' := CloseBracket(s.(participants := 0, currentTurnId := None), s.currentTurnId.value, s.currentTurn);
    EndLogged(s1, s', Envelope(s.currentTurnId, s.currentTurn, None, TurnEnded));
  }

  lemma FewerLogged(s: State, n: nat)
    requires LogInv(s)
    ensures LogInv(s.(participants := n))
  {
    SameQueues(s, s.(participants := n));
  }

  lemma EndTaskLogged(s: State, m: Uuid, o: Outcome)
    requires Inv(s) && LogInv(s) && !s.abandoned && m in s.tasks && s.tasks[m].started
    ensures LogInv(EndTask(s, m, o))
  {
    TerminalLogged(s, m, EndTask(s, m, o).log[|s.log|]);
  }

  lemma LastOneOut(s: State, m: Uuid, o: Outcome)
    requires Inv(s) && m in s.tasks && s.participants == 1
    ensures |EndTask(s, m, o).tasks| == 0 && s.joining == [] && s.lost == {} && !s.loop.Returned?
    ensures s.currentTurnId == Some(s.tasks[m].admission.turnId) && s.currentTurn == s.tasks[m].admission.turnNumber
  {
    RemoveTask(s.tasks, m);
  }

  /** A finish is the terminal, then either one participant fewer or the closing bracket. */
  lemma FinishShape(s: State, m: Uuid, o: Outcome)
    requires Inv(s) && m in s.tasks
    ensures s.participants > 1 ==>
              FinishParticipant(s, m, o) == EndTask(s, m, o).(participants := s.participants - 1)
    ensures s.participants == 1 ==>
              FinishParticipant(s, m, o)
              == CloseBracket(EndTask(s, m, o).(participants := 0, currentTurnId := None),
                              s.currentTurnId.value, s.currentTurn)
    ensures s.participants >= 1
  {
    RemoveTask(s.tasks, m);
    assert s.participants >= 1 && InTurn(s, s.tasks[m].admission);
    LeavingIs(EndTask(s, m, o));
  }

  lemma LeavingIs(s: State)
    ensures s.participants > 1 ==> LeaveTurn(s) == s.(participants := s.participants - 1)
    ensures s.participants <= 1 ==> LeaveTurn(s) == s.(participants := 0, currentTurnId := None)
  {
  }

  lemma OneOfManyLogged(s: State, m: Uuid, o: Outcome)
    requires Inv(s) && LogInv(s) && !s.abandoned && m in s.tasks && s.tasks[m].started && s.participants > 1
    ensures LogInv(EndTask(s, m, o).(participants := s.participants - 1))
  {
    EndTaskLogged(s, m, o);
    FewerLogged(EndTask(s, m, o), s.participants - 1);
  }

  lemma LastLogged(s: State, m: Uuid, o: Outcome)
    requires Inv(s) && LogInv(s) && !s.abandoned && m in s.tasks && s.tasks[m].started && s.participants == 1
    ensures LogInv(CloseBracket(EndTask(s, m, o).(participants := 0, currentTurnId := None),
                                s.currentTurnId.value, s.currentTurn))
  {
    EndTaskLogged(s, m, o);
    LastOneOut(s, m, o);
    BracketLogged(EndTask(s, m, o));
  }

  lemma FinishLogged(s: State, m: Uuid, o: Outcome)
    requires Inv(s) && LogInv(s) && !s.abandoned && m in s.tasks && s.tasks[m].started
    ensures LogInv(FinishParticipant(s, m, o))
  {
    FinishShape(s, m, o);
    if s.participants > 1 {
      OneOfManyLogged(s, m, o);
    } else {
      LastLogged(s, m, o);
    }
  }

  lemma ResumeLogged(cfg: Config, s: State)
    requires Inv(s) && LogInv(s) && Enabled(s, ResumeLoop)
    ensures LogInv(Resume(cfg, s))
  {
    if s.abandoned {
      assert Resume(cfg, s).abandoned;
    } else if s.loop.Drained? {
      ReturnLogged(cfg, s);
    } else {
      var s1 := CloseIfIdle(s);
      CloseIfIdleKeeps(s);
      SameQueues(s, s1);
      if !s1.closed {
        BodyLogged(cfg, s1);
      }
    }
  }

  lemma ReturnLogged(cfg: Config, s: State)
    requires Inv(s) && LogInv(s) && !s.abandoned && s.loop.Drained?
    ensures LogInv(Resume(cfg, s))
  {
    var s' := Resume(cfg, s);
    var g := Scan(s.log).value;
    SameQueues(s, s');
    Published(s, s', s'.log[|s.log|], g.(closed := true));
  }

  lemma BodyLogged(cfg: Config, s: State)
    requires Inv(s) && LogInv(s) && !s.abandoned && !s.closed && !s.loop.NotStarted?
    ensures LogInv(LoopBody(cfg, s))
  {
    SpawnLogged(s);
    SpawnKeeps(s);
    var s1 := SpawnJoins(s);
    if s1.CanOpenTurn() {
      OpenLogged(s1);
      OpenKeeps(s1);
    }
    LoopPcLogged(OpenIfPossible(s1), EnterLoop(cfg, OpenIfPossible(s1)));
  }

  /** Moving the loop anywhere but to its end says nothing new. */
  lemma LoopPcLogged(s: State, s': State)
    requires LogInv(s) && s' == s.(loop := s'.loop, closed := s'.closed, closeReason := s'.closeReason)
    requires s'.loop.Returned? <==> s.loop.Returned?
    ensures LogInv(s')
  {
    SameQueues(s, s');
  }

  lemma LoseLogged(s: State, m: Uuid)
    requires Inv(s) && LogInv(s) && !s.abandoned && m in s.tasks
    ensures LogInv(LoseReply(s, m))
  {
    SameQueues(s, LoseReply(s, m));
  }

  lemma AbandonedForGood(cfg: Config, s: State, step: Step)
    requires s.abandoned
    ensures Apply(cfg, s, step).abandoned
  {
    if Enabled(s, step) {
      match step
      case AdmitMessage(m) => HistoryOfAdmit(cfg, s, m);
      case ResumeLoop => HistoryOfResume(cfg, s);
      case Finish(m, o) => HistoryOfFinish(s, m, o);
      case _ =>
    }
  }

  lemma HistoryOfAdmit(cfg: Config, s: State, m: Message)
    ensures Admit(cfg, s, m).0.abandoned == s.abandoned
  {
  }

  lemma HistoryOfResume(cfg: Config, s: State)
    ensures Resume(cfg, s).abandoned == s.abandoned
  {
  }

  lemma HistoryOfFinish(s: State, m: Uuid, o: Outcome)
    requires m in s.tasks
    ensures FinishParticipant(s, m, o).abandoned == s.abandoned
  {
  }

  lemma AdmitLogged(cfg: Config, s: State, m: Message)
    requires Inv(s) && LogInv(s) && !s.abandoned
    ensures LogInv(Admit(cfg, s, m).0)
  {
    if Validate(cfg, s, m).None? {
      if Joins(cfg, s, m) { JoinLogged(cfg, s, m); } else { EnqueueLogged(cfg, s, m); }
    }
  }

  lemma FlagsLogged(cfg: Config, s: State, step: Step)
    requires Inv(s) && LogInv(s) && Enabled(s, step)
    requires step.CloseSignal? || step.StartLoop? || step.FireWait? || step.FireTimer?
    ensures LogInv(Apply(cfg, s, step))
  {
    LoopPcLogged(s, Apply(cfg, s, step));
  }

  lemma SideEffectsLogged(cfg: Config, s: State, step: Step)
    requires LogInv(s) && !s.abandoned && Enabled(s, step) && (step.SteerFrom? || step.Claim? || step.PublishOther?)
    ensures LogInv(Apply(cfg, s, step))
  {
    match step
    case SteerFrom(m, text) => SteeringLogged(s, Steer(s, m, text));
    case Claim(t, c) => SteeringLogged(s, ClaimSteering(s, t, c));
    case PublishOther(e) => Unread(s, Apply(cfg, s, step), e);
  }

  lemma StepLogged(cfg: Config, s: State, step: Step)
    requires Inv(s) && LogInv(s)
    ensures LogInv(Apply(cfg, s, step))
  {
    if s.abandoned {
      AbandonedForGood(cfg, s, step);
    } else if Enabled(s, step) {
      match step
      case AdmitMessage(m) => AdmitLogged(cfg, s, m);
      case ResumeLoop => ResumeLogged(cfg, s);
      case Start(m) => StartLogged(s, m);
      case Finish(m, o) => FinishLogged(s, m, o);
      case Abandon(m) =>
      case Lose(m) => LoseLogged(s, m);
      case SteerFrom(_, _) => SideEffectsLogged(cfg, s, step);
      case Claim(_, _) => SideEffectsLogged(cfg, s, step);
      case PublishOther(_) => SideEffectsLogged(cfg, s, step);
      case _ => FlagsLogged(cfg, s, step);
    }
  }

  lemma SteeringLogged(s: State, s': State)
    requires LogInv(s) && !s.abandoned && s.nextUuid <= s'.nextUuid
    requires s' == s.(log := s'.log, steering := s'.steering, nextUuid := s'.nextUuid)
    requires s'.log == s.log || (|s'.log| > 0 && s'.log == s.log + [s'.log[|s'.log| - 1]]
                                 && IsSteeringEvent(s'.log[|s'.log| - 1].event))
    ensures LogInv(s')
  {
    if s'.log == s.log {
      SameQueues(s, s');
    } else {
      Unread(s, s', s'.log[|s'.log| - 1]);
    }
  }

  lemma {:induction false} RunLogged(cfg: Config, s: State, steps: seq<Step>)
    requires Inv(s) && LogInv(s)
    ensures Inv(Exec(cfg, s, steps)) && LogInv(Exec(cfg, s, steps))
    decreases |steps|
  {
    if |steps| > 0 {
      StepKeeps(cfg, s, steps[0]);
      StepLogged(cfg, s, steps[0]);
      RunLogged(cfg, Apply(cfg, s, steps[0]), steps[1..]);
    }
  }

  /** The main result: every run in which no participant was torn down writes a log of the
      grammar, and the runner's variables agree with it. */
  lemma EveryRunIsGrammatical(cfg: Config, steps: seq<Step>)
    ensures var s := Exec(cfg, INIT, steps);
            Inv(s) && (!s.abandoned ==> Grammatical(s.log) && Rel(s, Scan(s.log).value))
  {
    RunLogged(cfg, INIT, steps);
  }
}
