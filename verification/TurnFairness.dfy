/** Every fair run finishes: a measure that each step of the loop or of a participant lowers, so
    that between two admissions only so many of them can happen, and what a state is like in
    which none is left. */
module TurnFairness {
  import opened Collections
  import opened Protocol
  import opened TurnGrammar
  import opened TurnMachine
  import opened TurnSafety
  import opened TurnLog
  import opened TurnTheorems

  /** A step of the loop or of a participant, whoever schedules it. */
  predicate IsProgress(step: Step) {
    step.StartLoop? || step.FireWait? || step.FireTimer? || step.ResumeLoop?
    || step.Start? || step.Finish? || step.Abandon? || step.Lose?
  }

  /** New work, or a close, comes from outside. */
  predicate IsArrival(step: Step) {
    step.AdmitMessage? || step.CloseSignal?
  }

  function StartedTasks(s: State): (r: set<Uuid>)
    ensures r <= s.tasks.Keys
  {
    set m | m in s.tasks && s.tasks[m].started
  }

  function LoopRank(s: State): (r: nat)
    ensures r <= 8
  {
    match s.loop
    case NotStarted => 8
    case Parked(mode) => if s.HasWork() then 7 else if mode.ForWorkOrIdle? then 6 else 4
    case Woken => 5
    case TimedOut => 3
    case Draining => 2
    case Drained => 1
    case Returned => 0
  }

  /** A queued or joining message costs ten, a spawned one five, a started one four. */
  function Rank(s: State): int {
    10 * (|s.pending| + |s.joining|) + 5 * |s.tasks| - |StartedTasks(s)| + LoopRank(s)
  }

  lemma RankIsNatural(s: State)
    ensures Rank(s) >= 0
  {
    SmallerSet(StartedTasks(s), s.tasks.Keys);
    assert |s.tasks.Keys| == |s.tasks|;
  }

  /** A loop that was woken, or whose idle timer may fire, has work to do or is idle. */
  predicate Rested(s: State) {
    s.loop.Woken? || s.loop.TimedOut? || s.loop == Parked(ForWorkOrTimer) ==> s.HasWork() || s.Idle()
  }

  // ---- The measure falls ---------------------------------------------------------------------

  lemma EnterRank(cfg: Config, s: State)
    ensures LoopRank(EnterLoop(cfg, s)) <= 7
    ensures !s.HasWork() ==> LoopRank(EnterLoop(cfg, s)) <= if s.Idle() then 4 else 6
    ensures s.closed ==> LoopRank(EnterLoop(cfg, s)) == 2
    ensures EnterLoop(cfg, s) == s.(loop := EnterLoop(cfg, s).loop)
  {
  }

  lemma SpawnRank(s: State)
    requires Inv(s)
    ensures |SpawnJoins(s).tasks| == |s.tasks| + |s.joining| && StartedTasks(SpawnJoins(s)) == StartedTasks(s)
  {
    SpawnAllGrows(s.tasks, s.joining);
    var t := SpawnJoins(s);
    forall m | m in t.tasks && m !in s.tasks
      ensures !t.tasks[m].started
    {
      var i :| 0 <= i < |s.joining| && s.joining[i].messageId == m;
    }
  }

  lemma OpenRank(s: State)
    requires Inv(s) && s.CanOpenTurn()
    ensures |OpenNextTurn(s).tasks| == 1 && |s.tasks| == 0 && StartedTasks(OpenNextTurn(s)) == StartedTasks(s) == {}
    ensures |OpenNextTurn(s).pending| == |s.pending| - 1 && OpenNextTurn(s).joining == s.joining == []
    ensures !OpenNextTurn(s).closed ==> !OpenNextTurn(s).HasWork()
  {
    NobodyLeft(s);
  }

  /** The body of the loop, with its weight in messages before and after. */
  lemma BodyRank(cfg: Config, s: State)
    requires Inv(s) && !s.closed && !s.loop.NotStarted? && (s.loop.Woken? || s.loop.TimedOut?)
    requires s.HasWork()
    ensures Rank(LoopBody(cfg, s)) < Rank(s)
  {
    SpawnKeeps(s);
    SpawnRank(s);
    var s1 := SpawnJoins(s);
    if s1.CanOpenTurn() {
      OpenRank(s1);
    }
    EnterRank(cfg, OpenIfPossible(s1));
  }

  lemma IdleBodyRank(cfg: Config, s: State)
    requires Inv(s) && !s.closed && s.loop.Woken? && s.Idle()
    ensures Rank(LoopBody(cfg, s)) < Rank(s)
  {
    assert SpawnJoins(s) == s.(tasks := s.tasks, joining := []);
    EnterRank(cfg, SpawnJoins(s));
  }

  lemma ResumeRank(cfg: Config, s: State)
    requires Inv(s) && Rested(s) && Enabled(s, ResumeLoop)
    ensures Rank(Resume(cfg, s)) < Rank(s)
  {
    if !s.loop.Drained? && !CloseIfIdle(s).closed {
      assert CloseIfIdle(s) == s;
      if s.HasWork() { BodyRank(cfg, s); } else { IdleBodyRank(cfg, s); }
    }
  }

  lemma StartRank(s: State, m: Uuid)
    requires m in s.tasks && !s.tasks[m].started
    ensures Rank(StartParticipant(s, m)) < Rank(s)
  {
    var t := StartParticipant(s, m);
    assert t.tasks.Keys == s.tasks.Keys;
    assert |t.tasks| == |t.tasks.Keys| && |s.tasks| == |s.tasks.Keys|;
    assert StartedTasks(t) == StartedTasks(s) + {m};
  }

  /** A participant's end, of any kind: its own weight goes, and at most the loop gets work. */
  lemma EndRank(s: State, t: State, m: Uuid)
    requires m in s.tasks && t.tasks == s.tasks - {m}
    requires t.pending == s.pending && t.joining == s.joining && t.loop == s.loop
    ensures Rank(t) < Rank(s)
  {
    RemoveTask(s.tasks, m);
    assert StartedTasks(s) == if s.tasks[m].started then StartedTasks(t) + {m} else StartedTasks(t);
    assert LoopRank(t) <= LoopRank(s) + 3;
  }

  lemma FinishRank(s: State, m: Uuid, o: Outcome)
    requires Inv(s) && m in s.tasks && s.tasks[m].started
    ensures Rank(FinishParticipant(s, m, o)) < Rank(s)
  {
    FinishShape(s, m, o);
    EndRank(s, FinishParticipant(s, m, o), m);
  }

  /** Every enabled step of the loop or of a participant lowers the measure; steering and what
      others publish leave it alone. Only new work and a close can raise it. */
  lemma RankFalls(cfg: Config, s: State, step: Step)
    requires Inv(s) && Rested(s) && Enabled(s, step) && !IsArrival(step)
    ensures IsProgress(step) ==> Rank(Apply(cfg, s, step)) < Rank(s)
    ensures !IsProgress(step) ==> Rank(Apply(cfg, s, step)) == Rank(s)
  {
    match step
    case ResumeLoop => ResumeRank(cfg, s);
    case Start(m) => StartRank(s, m);
    case Finish(m, o) => FinishRank(s, m, o);
    case Abandon(m) => EndRank(s, AbandonParticipant(s, m), m);
    case Lose(m) => EndRank(s, LoseReply(s, m), m);
    case SteerFrom(_, _) => NeutralRank(cfg, s, step);
    case Claim(_, _) => NeutralRank(cfg, s, step);
    case PublishOther(_) => NeutralRank(cfg, s, step);
    case _ => WakingRank(cfg, s, step);
  }

  lemma NeutralRank(cfg: Config, s: State, step: Step)
    requires Enabled(s, step) && (step.SteerFrom? || step.Claim? || step.PublishOther?)
    ensures Rank(Apply(cfg, s, step)) == Rank(s)
  {
    var t := Apply(cfg, s, step);
    assert t.tasks == s.tasks && t.pending == s.pending && t.joining == s.joining && t.loop == s.loop;
    assert StartedTasks(t) == StartedTasks(s);
  }

  lemma WakingRank(cfg: Config, s: State, step: Step)
    requires Enabled(s, step) && (step.StartLoop? || step.FireWait? || step.FireTimer?)
    ensures Rank(Apply(cfg, s, step)) < Rank(s)
  {
    EnterRank(cfg, s);
    var t := Apply(cfg, s, step);
    assert t == s.(loop := t.loop);
    assert StartedTasks(t) == StartedTasks(s);
    assert LoopRank(t) < LoopRank(s);
  }

  // ---- What is kept ------------------------------------------------------------------------------

  lemma BodyRests(cfg: Config, s: State)
    requires Inv(s) && !s.closed && !s.loop.NotStarted?
    ensures Rested(LoopBody(cfg, s))
  {
  }

  lemma AdmitRests(cfg: Config, s: State, m: Message)
    requires Inv(s) && Rested(s)
    ensures Rested(Admit(cfg, s, m).0)
  {
  }

  lemma EndRests(s: State, t: State, m: Uuid)
    requires Inv(s) && Rested(s) && m in s.tasks && t.loop == s.loop && t.closed == s.closed
    requires t.pending == s.pending && t.joining == s.joining && t.participants <= s.participants
    ensures Rested(t)
  {
    assert |s.tasks| > 0;
  }

  lemma StepRests(cfg: Config, s: State, step: Step)
    requires Inv(s) && Rested(s)
    ensures Rested(Apply(cfg, s, step))
  {
    if Enabled(s, step) {
      match step
      case AdmitMessage(m) => AdmitRests(cfg, s, m);
      case ResumeLoop => if !s.loop.Drained? && !CloseIfIdle(s).closed { BodyRests(cfg, s); }
      case Finish(m, o) => FinishShape(s, m, o); EndRests(s, FinishParticipant(s, m, o), m);
      case Abandon(m) => EndRests(s, AbandonParticipant(s, m), m);
      case Lose(m) => EndRests(s, LoseReply(s, m), m);
      case _ =>
    }
  }

  // ---- Runs ---------------------------------------------------------------------------------------

  /** How many of the steps were steps of the loop or a participant that did something. */
  function Progressed(cfg: Config, s: State, steps: seq<Step>): nat
    decreases |steps|
  {
    if |steps| == 0 then 0
    else (if IsProgress(steps[0]) && Enabled(s, steps[0]) then 1 else 0)
         + Progressed(cfg, Apply(cfg, s, steps[0]), steps[1..])
  }

  /** However the loop and the participants are scheduled, only so many of their steps can happen
      before new work arrives. */
  lemma {:induction false} ProgressIsBounded(cfg: Config, s: State, steps: seq<Step>)
    requires Inv(s) && Rested(s) && forall step <- steps :: !IsArrival(step)
    ensures Inv(Exec(cfg, s, steps)) && Rested(Exec(cfg, s, steps))
    ensures Progressed(cfg, s, steps) + Rank(Exec(cfg, s, steps)) <= Rank(s)
    ensures 0 <= Progressed(cfg, s, steps) <= Rank(s)
    decreases |steps|
  {
    RankIsNatural(s);
    if |steps| > 0 {
      StepKeeps(cfg, s, steps[0]);
      StepRests(cfg, s, steps[0]);
      assert steps[0] in steps;
      if Enabled(s, steps[0]) {
        RankFalls(cfg, s, steps[0]);
      }
      ProgressIsBounded(cfg, Apply(cfg, s, steps[0]), steps[1..]);
      RankIsNatural(Exec(cfg, s, steps));
    }
  }

  /** When no step of the loop or of a participant is left, the agent has returned, or it is idle
      and waits for work, or somebody is counted who will never leave. So every fair run
      finishes unless a join was left waiting at a close or a participant was lost. */
  lemma AtRestIsFinished(s: State)
    requires Inv(s) && AtRest(s)
    ensures s.loop.Returned? || (s.Idle() && s.loop == Parked(ForWork)) || s.lost != {}
            || (s.loop.Draining? && s.joining != [])
  {
    assert forall m <- s.tasks :: Enabled(s, Start(m)) || Enabled(s, Finish(m, Replied("")));
    assert s.tasks == map[];
    assert !Enabled(s, StartLoop) && !Enabled(s, FireWait) && !Enabled(s, FireTimer) && !Enabled(s, ResumeLoop);
    assert s.lost == {} ==> |s.lost| == 0;
  }

  /** The measure applies to every run: an agent starts with it, and every step keeps it. */
  lemma {:induction false} EveryRunRests(cfg: Config, s: State, steps: seq<Step>)
    requires Inv(s) && Rested(s)
    ensures Inv(Exec(cfg, s, steps)) && Rested(Exec(cfg, s, steps))
    decreases |steps|
  {
    if |steps| > 0 {
      StepKeeps(cfg, s, steps[0]);
      StepRests(cfg, s, steps[0]);
      EveryRunRests(cfg, Apply(cfg, s, steps[0]), steps[1..]);
    }
  }

  /** No step of the loop or of a participant is left to schedule. */
  ghost predicate AtRest(s: State) {
    forall step :: IsProgress(step) ==> !Enabled(s, step)
  }

  /** Put together, from the very start of an agent: after any run, any schedule without new work
      takes at most `Rank` steps of loop and participants, and where it comes to rest the agent
      has returned, or is idle, or holds somebody who will never leave. */
  lemma FairRunsFinish(cfg: Config, before: seq<Step>, after: seq<Step>)
    requires forall step <- after :: !IsArrival(step)
    ensures var s := Exec(cfg, INIT, before);
            var t := Exec(cfg, s, after);
            && Progressed(cfg, s, after) <= Rank(s)
            && (AtRest(t) ==> t.loop.Returned? || (t.Idle() && t.loop == Parked(ForWork)) || t.lost != {}
                              || (t.loop.Draining? && t.joining != []))
  {
    EveryRunRests(cfg, INIT, before);
    var s := Exec(cfg, INIT, before);
    ProgressIsBounded(cfg, s, after);
    if AtRest(Exec(cfg, s, after)) {
      AtRestIsFinished(Exec(cfg, s, after));
    }
  }

  /** With nobody lost and no close asked for, an agent at rest is idle: it waits for work, or its
      idle timeout has closed it. */
  lemma AtRestUnasked(s: State)
    requires Inv(s) && AtRest(s) && s.closeReason != Some(REQUESTED) && s.lost == {}
    ensures s.Idle()
    ensures s.loop == Parked(ForWork) || (s.loop.Returned? && s.closeReason == Some(IDLE_TIMEOUT_EXPIRED))
  {
    AtRestIsFinished(s);
    if s.closed {
      assert s.closeReason.Some? && (s.closeReason.value.REQUESTED? || s.closeReason.value.IDLE_TIMEOUT_EXPIRED?);
    }
  }

  /** So under every fair schedule of an agent that nobody asks to close, with an idle timeout or
      without, every accepted message gets its terminal and its turn's end, unless a
      participant was lost or torn down. */
  lemma FairRunsAnswer(cfg: Config, steps: seq<Step>, a: nat, m: Uuid) returns (t: nat, e: nat)
    requires AtRest(Exec(cfg, INIT, steps)) && Exec(cfg, INIT, steps).closeReason != Some(REQUESTED)
    requires !Exec(cfg, INIT, steps).abandoned && Exec(cfg, INIT, steps).lost == {}
    requires Accepts(Exec(cfg, INIT, steps).log, a, m)
    ensures var log := Exec(cfg, INIT, steps).log;
            a < t < e && Terminates(log, t, m) && Ends(log, e) && log[e].turnId == log[a].turnId
  {
    RunLogged(cfg, INIT, steps);
    t, e := RestedAnswers(Exec(cfg, INIT, steps), a, m);
  }

  lemma RestedAnswers(s: State, a: nat, m: Uuid) returns (t: nat, e: nat)
    requires Inv(s) && LogInv(s) && AtRest(s) && s.closeReason != Some(REQUESTED) && s.lost == {} && !s.abandoned
    requires Accepts(s.log, a, m)
    ensures a < t < e && Terminates(s.log, t, m) && Ends(s.log, e) && s.log[e].turnId == s.log[a].turnId
  {
    AtRestUnasked(s);
    QuietMeansFinished(s, a, m);
    t, e := FinishedAndClosed(s.log, a, m);
  }

  // ---- With an idle timeout -----------------------------------------------------------------------

  /** The wait without a clock is for agents without an idle timeout. */
  predicate WaitsAsConfigured(cfg: Config, s: State) {
    cfg.closeAfterIdle ==> s.loop != Parked(ForWork)
  }

  lemma StepWaits(cfg: Config, s: State, step: Step)
    requires WaitsAsConfigured(cfg, s)
    ensures WaitsAsConfigured(cfg, Apply(cfg, s, step))
  {
    if Enabled(s, step) {
      match step
      case AdmitMessage(m) => AdmitWaits(cfg, s, m);
      case Finish(m, o) => FinishWaits(s, m, o);
      case ResumeLoop => ResumeWaits(cfg, s);
      case _ =>
    }
  }

  lemma AdmitWaits(cfg: Config, s: State, m: Message)
    ensures Admit(cfg, s, m).0.loop == s.loop
  {
  }

  lemma FinishWaits(s: State, m: Uuid, o: Outcome)
    requires m in s.tasks
    ensures FinishParticipant(s, m, o).loop == s.loop
  {
  }

  lemma ResumeWaits(cfg: Config, s: State)
    requires cfg.closeAfterIdle ==> s.loop != Parked(ForWork)
    ensures WaitsAsConfigured(cfg, Resume(cfg, s))
  {
  }

  lemma {:induction false} RunWaits(cfg: Config, s: State, steps: seq<Step>)
    requires WaitsAsConfigured(cfg, s)
    ensures WaitsAsConfigured(cfg, Exec(cfg, s, steps))
    decreases |steps|
  {
    if |steps| > 0 {
      StepWaits(cfg, s, steps[0]);
      RunWaits(cfg, Apply(cfg, s, steps[0]), steps[1..]);
    }
  }

  /** And an agent with an idle timeout that nobody asks to close comes to rest only by returning,
      closed by that timeout, unless a participant was lost. */
  lemma FairRunsReturn(cfg: Config, steps: seq<Step>)
    requires cfg.closeAfterIdle
    requires AtRest(Exec(cfg, INIT, steps)) && Exec(cfg, INIT, steps).closeReason != Some(REQUESTED)
    requires Exec(cfg, INIT, steps).lost == {}
    ensures var s := Exec(cfg, INIT, steps);
            s.loop.Returned? && s.closeReason == Some(IDLE_TIMEOUT_EXPIRED)
  {
    RunKeeps(cfg, INIT, steps);
    RunWaits(cfg, INIT, steps);
    AtRestUnasked(Exec(cfg, INIT, steps));
  }
}
