/** What every run of the turn protocol keeps. */
module TurnSafety {
  import opened Protocol
  import opened TurnGrammar
  import opened TurnMachine

  // ---- Counting: holds in every run, abandoned participants included -------------

  /** The refcount is the waiting joins, the spawned, unfinished participants, and those
      that were lost; the turn is open exactly while it is positive. */
  ghost predicate Counted(s: State) {
    && s.participants == |s.joining| + |s.tasks| + |s.lost|
    && (s.currentTurnId.Some? <==> s.participants > 0)
    && (s.currentTurnId.Some? ==> s.currentTurn > 0)
  }

  predicate InTurn(s: State, a: Admission) {
    Some(a.turnId) == s.currentTurnId && a.turnNumber == s.currentTurn
  }

  /** Every counted participant carries the id and number of the turn that is open now. */
  ghost predicate OneTurn(s: State) {
    && (forall i :: 0 <= i < |s.joining| ==> InTurn(s, s.joining[i]))
    && (forall m <- s.tasks :: InTurn(s, s.tasks[m].admission) && s.tasks[m].admission.messageId == m)
  }

  /** The i-th queued admission holds number current+i+1. */
  ghost predicate SlotsExact(s: State) {
    forall i :: 0 <= i < |s.pending| ==> s.pending[i].turnNumber == s.currentTurn + i + 1
  }

  ghost predicate IdsFresh(s: State) {
    && (forall i :: 0 <= i < |s.joining| ==> s.joining[i].messageId < s.nextUuid && s.joining[i].messageId !in s.tasks)
    && (forall i, j :: 0 <= i < j < |s.joining| ==> s.joining[i].messageId != s.joining[j].messageId)
    && (forall m <- s.tasks :: m < s.nextUuid)
    && (forall i :: 0 <= i < |s.pending| ==> s.pending[i].messageId < s.nextUuid)
    && (forall m <- s.lost :: m < s.nextUuid && m !in s.tasks)
    && (forall i :: 0 <= i < |s.joining| ==> s.joining[i].messageId !in s.lost)
  }

  ghost predicate LoopSound(s: State) {
    && (s.closed <==> s.closeReason.Some?)
    && (s.loop.Draining? || s.loop.Drained? || s.loop.Returned? ==> s.closed)
    && (s.loop.Drained? || s.loop.Returned? ==> s.participants == 0)
    && (s.loop.NotStarted? ==> s.participants == 0)
    && (s.closeReason == Some(IDLE_TIMEOUT_EXPIRED) ==> s.Idle())
  }

  ghost predicate Inv(s: State) {
    Counted(s) && OneTurn(s) && SlotsExact(s) && IdsFresh(s) && LoopSound(s)
  }

  lemma SpawnAllGrows(tasks: map<Uuid, Participant>, joins: seq<Admission>)
    requires forall i :: 0 <= i < |joins| ==> joins[i].messageId !in tasks
    requires forall i, j :: 0 <= i < j < |joins| ==> joins[i].messageId != joins[j].messageId
    ensures var r := SpawnAll(tasks, joins);
            && |r| == |tasks| + |joins|
            && (forall m <- tasks :: m in r && r[m] == tasks[m])
            && (forall i :: 0 <= i < |joins| ==>
                  joins[i].messageId in r && r[joins[i].messageId] == Participant(joins[i], true, false))
            && (forall m <- r :: m in tasks || exists i :: 0 <= i < |joins| && joins[i].messageId == m)
    decreases |joins|
  {
    if |joins| > 0 {
      var tasks1 := tasks[joins[0].messageId := Participant(joins[0], true, false)];
      SpawnAllGrows(tasks1, joins[1..]);
      var r := SpawnAll(tasks1, joins[1..]);
      forall m | m in r
        ensures m in tasks || exists i :: 0 <= i < |joins| && joins[i].messageId == m
      {
        if m !in tasks {
          if m == joins[0].messageId {
          } else {
            var i :| 0 <= i < |joins[1..]| && joins[1..][i].messageId == m;
            assert joins[i + 1].messageId == m;
          }
        }
      }
      forall i | 0 <= i < |joins|
        ensures joins[i].messageId in r && r[joins[i].messageId] == Participant(joins[i], true, false)
      {
        if i > 0 {
          assert joins[1..][i - 1] == joins[i];
        }
      }
    }
  }

  /** Appending to the waiting joins a participant of the open turn. */
  lemma JoinKeeps(s: State, a: Admission)
    requires Inv(s) && s.TurnActive() && !s.closed && InTurn(s, a) && a.messageId == s.nextUuid
    ensures Inv(s.(participants := s.participants + 1, joining := s.joining + [a], nextUuid := s.nextUuid + 1))
  {
    var s' := s.(participants := s.participants + 1, joining := s.joining + [a], nextUuid := s.nextUuid + 1);
    assert forall i :: 0 <= i < |s.joining| ==> s'.joining[i] == s.joining[i];
  }

  lemma EnqueueKeeps(s: State, a: Admission)
    requires Inv(s) && !s.closed && a.turnNumber == s.currentTurn + |s.pending| + 1 && a.messageId == s.nextUuid
    ensures Inv(s.(pending := s.pending + [a], nextUuid := s.nextUuid + 2))
  {
    var s' := s.(pending := s.pending + [a], nextUuid := s.nextUuid + 2);
    assert forall i :: 0 <= i < |s.pending| ==> s'.pending[i] == s.pending[i];
  }

  lemma AdmitKeeps(cfg: Config, s: State, m: Message)
    requires Inv(s)
    ensures Inv(Admit(cfg, s, m).0)
  {
    if Validate(cfg, s, m).None? {
      var r := ReplyTo(cfg, s, m);
      var a := Admission(m, r.turnId, r.turnNumber, r.messageId);
      if Joins(cfg, s, m) {
        JoinKeeps(s, a);
      } else {
        EnqueueKeeps(s, a);
      }
    }
  }

  lemma SpawnKeeps(s: State)
    requires Inv(s) && !s.closed && !s.loop.NotStarted?
    ensures Inv(SpawnJoins(s))
  {
    SpawnAllGrows(s.tasks, s.joining);
  }

  lemma OpenKeeps(s: State)
    requires Inv(s) && !s.closed && s.CanOpenTurn() && !s.loop.NotStarted?
    ensures Inv(OpenNextTurn(s))
  {
    var s' := OpenNextTurn(s);
    assert |s.tasks| == 0 && |s.lost| == 0;
    assert s.tasks == map[] && s.lost == {};
    assert s'.tasks == map[s.pending[0].messageId := Participant(s.pending[0], false, false)];
    assert forall i :: 0 <= i < |s'.pending| ==> s'.pending[i] == s.pending[i + 1];
  }

  lemma EnterKeeps(cfg: Config, s: State)
    requires Inv(s)
    ensures Inv(EnterLoop(cfg, s))
  {
  }

  lemma LoopBodyKeeps(cfg: Config, s: State)
    requires Inv(s) && !s.closed && !s.loop.NotStarted?
    ensures Inv(LoopBody(cfg, s))
  {
    SpawnKeeps(s);
    var s1 := SpawnJoins(s);
    if s1.CanOpenTurn() {
      OpenKeeps(s1);
    }
    EnterKeeps(cfg, OpenIfPossible(s1));
  }

  lemma CloseIfIdleKeeps(s: State)
    requires Inv(s)
    ensures Inv(CloseIfIdle(s))
  {
  }

  lemma ResumeKeeps(cfg: Config, s: State)
    requires Inv(s) && Enabled(s, ResumeLoop)
    ensures Inv(Resume(cfg, s))
  {
    if !s.loop.Drained? {
      CloseIfIdleKeeps(s);
      if !CloseIfIdle(s).closed {
        LoopBodyKeeps(cfg, CloseIfIdle(s));
      }
    }
  }

  lemma RemoveTask(tasks: map<Uuid, Participant>, m: Uuid)
    requires m in tasks
    ensures |tasks - {m}| == |tasks| - 1
  {
    assert tasks == (tasks - {m})[m := tasks[m]];
  }

  lemma LeaveKeeps(s: State, m: Uuid)
    requires Inv(s) && m in s.tasks
    ensures Inv(LeaveTurn(s.(tasks := s.tasks - {m})))
  {
    RemoveTask(s.tasks, m);
    var s' := LeaveTurn(s.(tasks := s.tasks - {m}));
    if s'.participants == 0 {
      assert |s'.tasks| == 0;
      assert s'.tasks == map[];
    }
  }

  /** What leaves the counting facts alone: the log, the steering queue, the history flags. */
  lemma SameCounts(s: State, t: State)
    requires Inv(s)
    requires t == s.(log := t.log, steering := t.steering, nextUuid := t.nextUuid, abandoned := t.abandoned)
    requires s.nextUuid <= t.nextUuid
    ensures Inv(t)
  {
  }

  lemma FinishKeeps(s: State, m: Uuid, o: Outcome)
    requires Inv(s) && m in s.tasks
    ensures Inv(FinishParticipant(s, m, o))
  {
    LeaveKeeps(s, m);
    SameCounts(LeaveTurn(s.(tasks := s.tasks - {m})), FinishParticipant(s, m, o));
  }

  lemma FlagsKeep(cfg: Config, s: State, step: Step)
    requires Inv(s) && Enabled(s, step)
    requires step.CloseSignal? || step.FireWait? || step.FireTimer? || step.Start?
    ensures Inv(Apply(cfg, s, step))
  {
    if step.Start? {
      var s' := StartParticipant(s, step.m);
      assert s'.tasks.Keys == s.tasks.Keys;
      assert |s'.tasks| == |s.tasks|;
    }
  }

  lemma SideEffectsKeep(cfg: Config, s: State, step: Step)
    requires Inv(s) && Enabled(s, step) && (step.SteerFrom? || step.Claim? || step.PublishOther?)
    ensures Inv(Apply(cfg, s, step))
  {
    SameCounts(s, Apply(cfg, s, step));
  }

  lemma AbandonKeeps(s: State, m: Uuid)
    requires Inv(s) && m in s.tasks
    ensures Inv(AbandonParticipant(s, m))
  {
    LeaveKeeps(s, m);
    SameCounts(LeaveTurn(s.(tasks := s.tasks - {m})), AbandonParticipant(s, m));
  }

  lemma LoseKeeps(s: State, m: Uuid)
    requires Inv(s) && m in s.tasks
    ensures Inv(LoseReply(s, m))
  {
    RemoveTask(s.tasks, m);
  }

  lemma StepKeeps(cfg: Config, s: State, step: Step)
    requires Inv(s)
    ensures Inv(Apply(cfg, s, step))
  {
    if Enabled(s, step) {
      match step
      case AdmitMessage(m) => AdmitKeeps(cfg, s, m);
      case StartLoop => EnterKeeps(cfg, s);
      case ResumeLoop => ResumeKeeps(cfg, s);
      case Finish(m, o) => FinishKeeps(s, m, o);
      case Abandon(m) => AbandonKeeps(s, m);
      case Lose(m) => LoseKeeps(s, m);
      case SteerFrom(_, _) => SideEffectsKeep(cfg, s, step);
      case Claim(_, _) => SideEffectsKeep(cfg, s, step);
      case PublishOther(_) => SideEffectsKeep(cfg, s, step);
      case _ => FlagsKeep(cfg, s, step);
    }
  }

  /** In every reachable state of every run, whatever the interleaving, a turn is never split
      and no join outlives its turn. */
  lemma {:induction false} RunKeeps(cfg: Config, s: State, steps: seq<Step>)
    requires Inv(s)
    ensures Inv(Exec(cfg, s, steps))
    decreases |steps|
  {
    if |steps| > 0 {
      StepKeeps(cfg, s, steps[0]);
      RunKeeps(cfg, Apply(cfg, s, steps[0]), steps[1..]);
    }
  }

  /** Step `n` of the run ends a participant whose reply fails to serialize. */
  predicate LosesAt(cfg: Config, s: State, steps: seq<Step>, n: nat) {
    n < |steps| && steps[n].Lose? && Enabled(Exec(cfg, s, steps[..n]), steps[n])
  }

  lemma LosesLater(cfg: Config, s: State, steps: seq<Step>, n: nat)
    requires n < |steps|
    ensures n == 0 ==> (LosesAt(cfg, s, steps, n) <==> steps[0].Lose? && Enabled(s, steps[0]))
    ensures n > 0 ==> (LosesAt(cfg, s, steps, n) <==> LosesAt(cfg, Apply(cfg, s, steps[0]), steps[1..], n - 1))
  {
    if n > 0 {
      assert steps[..n][1..] == steps[1..][..n - 1];
    }
  }

  /** Only such a step adds to `lost`, and nothing ever takes from it. */
  lemma LostByStep(cfg: Config, s: State, step: Step)
    ensures Apply(cfg, s, step).lost == if step.Lose? && Enabled(s, step) then s.lost + {step.m} else s.lost
  {
    if Enabled(s, step) {
      match step
      case AdmitMessage(m) => AdmitLoses(cfg, s, m);
      case ResumeLoop => ResumeLoses(cfg, s);
      case Finish(m, o) => FinishLoses(s, m, o);
      case _ =>
    }
  }

  lemma AdmitLoses(cfg: Config, s: State, m: Message)
    ensures Admit(cfg, s, m).0.lost == s.lost
  {
  }

  lemma ResumeLoses(cfg: Config, s: State)
    ensures Resume(cfg, s).lost == s.lost
  {
  }

  lemma FinishLoses(s: State, m: Uuid, o: Outcome)
    requires m in s.tasks
    ensures FinishParticipant(s, m, o).lost == s.lost
  {
  }

  lemma {:induction false} LostIff(cfg: Config, s: State, steps: seq<Step>)
    ensures Exec(cfg, s, steps).lost == {} <==> s.lost == {} && forall n: nat :: !LosesAt(cfg, s, steps, n)
    decreases |steps|
  {
    if |steps| > 0 {
      LostByStep(cfg, s, steps[0]);
      LostIff(cfg, Apply(cfg, s, steps[0]), steps[1..]);
      LosesShift(cfg, s, steps);
    }
  }

  lemma LosesShift(cfg: Config, s: State, steps: seq<Step>)
    requires |steps| > 0
    ensures (exists n: nat :: LosesAt(cfg, s, steps, n)) <==>
              (steps[0].Lose? && Enabled(s, steps[0]))
              || exists n: nat :: LosesAt(cfg, Apply(cfg, s, steps[0]), steps[1..], n)
  {
    if n: nat :| LosesAt(cfg, s, steps, n) {
      LosesLater(cfg, s, steps, n);
    }
    LosesLater(cfg, s, steps, 0);
    if n: nat :| LosesAt(cfg, Apply(cfg, s, steps[0]), steps[1..], n) {
      LosesLater(cfg, s, steps, n + 1);
    }
  }

  /** Spelled out for the runs of an agent, close, idle timeout and torn-down participants
      included: the turn id is set exactly while the refcount is positive; each participant
      belongs to the current turn; the i-th queued message holds the i-th number from now; and
      the refcount is the waiting joins plus the spawned, unfinished participants if and only
      if the run lost no participant: no finished reply failed to serialize, and no task was
      cancelled before it began. */
  lemma EveryRunIsCounted(cfg: Config, steps: seq<Step>)
    ensures var s := Exec(cfg, INIT, steps);
            && (s.participants == |s.joining| + |s.tasks| <==> forall n: nat :: !LosesAt(cfg, INIT, steps, n))
            && s.participants >= |s.joining| + |s.tasks|
            && (s.currentTurnId.Some? <==> s.participants > 0)
            && (forall a <- s.joining :: Some(a.turnId) == s.currentTurnId && a.turnNumber == s.currentTurn)
            && (forall m <- s.tasks :: Some(s.tasks[m].admission.turnId) == s.currentTurnId
                                       && s.tasks[m].admission.turnNumber == s.currentTurn)
            && (forall i :: 0 <= i < |s.pending| ==> s.pending[i].turnNumber == s.currentTurn + i + 1)
  {
    RunKeeps(cfg, INIT, steps);
    LostIff(cfg, INIT, steps);
    var s := Exec(cfg, INIT, steps);
    assert forall i :: 0 <= i < |s.joining| ==> InTurn(s, s.joining[i]);
    assert |s.lost| == 0 <==> s.lost == {};
  }
}
