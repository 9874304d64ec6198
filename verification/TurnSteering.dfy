/** What becomes of steering over whole runs: what was minted, what was taken from the queue,
    and how much of it the log shows. */
module TurnSteering {
  import opened Protocol
  import opened TurnMachine
  import opened TurnSafety
  import opened TurnLog

  // ---- What a run does with steering ---------------------------------------------------------

  /** Every id `steer` minted, in order; of these the ones queued with no turn open, which no
      event announces; and the ids claimed with no turn open, which no event settles. */
  datatype History = History(steered: seq<Uuid>, unannounced: set<Uuid>, untold: set<Uuid>)

  const NOTHING_YET := History([], {}, {})

  function Observe(h: History, s: State, step: Step): History {
    match step
    case SteerFrom(_, _) =>
      h.(steered := h.steered + [s.nextUuid],
         unannounced := if s.currentTurnId.Some? then h.unannounced else h.unannounced + {s.nextUuid})
    case Claim(inTool, _) =>
      if inTool || s.currentTurnId.Some? then h else h.(untold := h.untold + IdSet(SteeringIds(s.steering)))
    case _ => h
  }

  function HistoryOf(cfg: Config, s: State, h: History, steps: seq<Step>): History
    decreases |steps|
  {
    if |steps| == 0 then h else HistoryOf(cfg, Apply(cfg, s, steps[0]), Observe(h, s, steps[0]), steps[1..])
  }

  function IdSet(ids: seq<Uuid>): set<Uuid> {
    set id | id in ids
  }

  /** What was minted and is no longer queued. */
  function Taken(h: History, s: State): seq<Uuid> {
    if |s.steering| <= |h.steered| then h.steered[..|h.steered| - |s.steering|] else []
  }

  // ---- What the log shows of it --------------------------------------------------------------

  function EnqueuedBy(e: Event): seq<Uuid> {
    if e.SteeringEnqueued? then [e.steeringId] else []
  }

  function SettledBy(e: Event): seq<Uuid> {
    if e.SteeringClaimed? || e.SteeringDropped? then e.steeringIds else []
  }

  function EnqueuedIds(log: seq<Envelope>): seq<Uuid> {
    if log == [] then [] else EnqueuedIds(log[..|log| - 1]) + EnqueuedBy(log[|log| - 1].event)
  }

  /** Every id a `steering_claimed` or `steering_dropped` lists, in log order. */
  function SettledIds(log: seq<Envelope>): seq<Uuid> {
    if log == [] then [] else SettledIds(log[..|log| - 1]) + SettledBy(log[|log| - 1].event)
  }

  lemma IdsAppend(log: seq<Envelope>, e: Envelope)
    ensures EnqueuedIds(log + [e]) == EnqueuedIds(log) + EnqueuedBy(e.event)
    ensures SettledIds(log + [e]) == SettledIds(log) + SettledBy(e.event)
  {
    assert (log + [e])[..|log|] == log;
  }

  // ---- Sequences less some of their ids ------------------------------------------------------

  function Without(ids: seq<Uuid>, gone: set<Uuid>): seq<Uuid> {
    if ids == [] then []
    else (if ids[0] in gone then [] else [ids[0]]) + Without(ids[1..], gone)
  }

  lemma {:induction false} WithoutAppend(a: seq<Uuid>, b: seq<Uuid>, gone: set<Uuid>)
    ensures Without(a + b, gone) == Without(a, gone) + Without(b, gone)
  {
    if a == [] {
      assert a + b == b;
    } else {
      assert (a + b)[1..] == a[1..] + b;
      WithoutAppend(a[1..], b, gone);
    }
  }

  lemma {:induction false} WithoutNone(ids: seq<Uuid>, gone: set<Uuid>)
    requires forall id <- ids :: id !in gone
    ensures Without(ids, gone) == ids
  {
    if ids != [] {
      WithoutNone(ids[1..], gone);
    }
  }

  lemma {:induction false} WithoutAll(ids: seq<Uuid>, gone: set<Uuid>)
    requires forall id <- ids :: id in gone
    ensures Without(ids, gone) == []
  {
    if ids != [] {
      WithoutAll(ids[1..], gone);
    }
  }

  /** Taking away what does not occur changes nothing. */
  lemma {:induction false} WithoutMore(ids: seq<Uuid>, gone: set<Uuid>, more: set<Uuid>)
    requires forall id <- ids :: id !in more
    ensures Without(ids, gone + more) == Without(ids, gone)
  {
    if ids != [] {
      WithoutMore(ids[1..], gone, more);
    }
  }

  lemma {:induction false} WithoutHas(ids: seq<Uuid>, gone: set<Uuid>, id: Uuid)
    ensures id in Without(ids, gone) <==> id in ids && id !in gone
  {
    if ids != [] {
      WithoutHas(ids[1..], gone, id);
      assert ids == [ids[0]] + ids[1..];
    }
  }

  // ---- The account ---------------------------------------------------------------------------

  predicate Increasing(ids: seq<Uuid>, bound: nat) {
    (forall i, j :: 0 <= i < j < |ids| ==> ids[i] < ids[j]) && (forall i :: 0 <= i < |ids| ==> ids[i] < bound)
  }

  /** The queue is the tail of what was minted; the log shows the minted less the unannounced
      and the taken less the untold. */
  predicate Ledger(taken: seq<Uuid>, queue: seq<Uuid>, h: History, enqueued: seq<Uuid>, settled: seq<Uuid>, bound: nat) {
    && h.steered == taken + queue
    && Increasing(h.steered, bound)
    && (forall id <- h.unannounced :: id in h.steered)
    && (forall id <- h.untold :: id in taken)
    && enqueued == Without(h.steered, h.unannounced)
    && settled == Without(taken, h.untold)
  }

  ghost predicate SteeringInv(s: State, h: History) {
    && Ledger(Taken(h, s), SteeringIds(s.steering), h, EnqueuedIds(s.log), SettledIds(s.log), s.nextUuid)
    && Quiet(s, h)
  }

  /** With no turn open only what was queued outside a turn is queued. */
  ghost predicate Quiet(s: State, h: History) {
    s.currentTurnId.None? && !s.abandoned ==> forall id <- SteeringIds(s.steering) :: id in h.unannounced
  }

  lemma MintTold(taken: seq<Uuid>, queue: seq<Uuid>, h: History, enqueued: seq<Uuid>, settled: seq<Uuid>, id: nat)
    requires Ledger(taken, queue, h, enqueued, settled, id)
    ensures Ledger(taken, queue + [id], h.(steered := h.steered + [id]), enqueued + [id], settled, id + 1)
  {
    assert taken + (queue + [id]) == h.steered + [id];
    WithoutAppend(h.steered, [id], h.unannounced);
    WithoutNone([id], h.unannounced);
  }

  lemma MintUntold(taken: seq<Uuid>, queue: seq<Uuid>, h: History, enqueued: seq<Uuid>, settled: seq<Uuid>, id: nat)
    requires Ledger(taken, queue, h, enqueued, settled, id)
    ensures Ledger(taken, queue + [id], h.(steered := h.steered + [id], unannounced := h.unannounced + {id}),
                   enqueued, settled, id + 1)
  {
    assert taken + (queue + [id]) == h.steered + [id];
    WithoutAppend(h.steered, [id], h.unannounced + {id});
    WithoutMore(h.steered, h.unannounced, {id});
    WithoutAll([id], h.unannounced + {id});
  }

  /** Emptying the queue and saying so. */
  lemma TakeTold(taken: seq<Uuid>, queue: seq<Uuid>, h: History, enqueued: seq<Uuid>, settled: seq<Uuid>, bound: nat)
    requires Ledger(taken, queue, h, enqueued, settled, bound)
    ensures Ledger(h.steered, [], h, enqueued, settled + queue, bound)
  {
    Apart(taken, queue, bound);
    assert h.steered + [] == h.steered;
    WithoutAppend(taken, queue, h.untold);
    WithoutNone(queue, h.untold);
  }

  lemma TakeUntold(taken: seq<Uuid>, queue: seq<Uuid>, h: History, enqueued: seq<Uuid>, settled: seq<Uuid>, bound: nat)
    requires Ledger(taken, queue, h, enqueued, settled, bound)
    ensures Ledger(h.steered, [], h.(untold := h.untold + IdSet(queue)), enqueued, settled, bound)
  {
    Apart(taken, queue, bound);
    assert h.steered + [] == h.steered;
    WithoutAppend(taken, queue, h.untold + IdSet(queue));
    WithoutMore(taken, h.untold, IdSet(queue));
    WithoutAll(queue, h.untold + IdSet(queue));
  }

  /** What was taken is not in the queue any more. */
  lemma Apart(taken: seq<Uuid>, queue: seq<Uuid>, bound: nat)
    requires Increasing(taken + queue, bound)
    ensures forall id <- queue :: id !in taken
  {
    forall id | id in queue
      ensures id !in taken
    {
      var j :| 0 <= j < |queue| && queue[j] == id;
      assert (taken + queue)[|taken| + j] == id;
      forall i | 0 <= i < |taken|
        ensures taken[i] != id
      {
        assert (taken + queue)[i] < (taken + queue)[|taken| + j];
      }
    }
  }

  // ---- Every step keeps it -------------------------------------------------------------------

  lemma SteeringIdsAppend(q: seq<SteeringMessage>, x: SteeringMessage)
    ensures SteeringIds(q + [x]) == SteeringIds(q) + [x.steeringId]
  {
  }

  /** Leaves steering alone: at most one event, of another kind, is published. */
  predicate Aside(s: State, t: State) {
    && t.steering == s.steering && s.nextUuid <= t.nextUuid && t.abandoned == s.abandoned
    && (t.currentTurnId.None? ==> s.currentTurnId.None? || s.steering == [])
    && (t.log == s.log || (|t.log| > 0 && t.log == s.log + [t.log[|t.log| - 1]] && !IsSteeringEvent(t.log[|t.log| - 1].event)))
  }

  lemma AsideConserves(s: State, t: State, h: History)
    requires SteeringInv(s, h) && Aside(s, t)
    ensures SteeringInv(t, h)
  {
    if t.log != s.log {
      QuietIds(s.log, t.log, t.log[|t.log| - 1]);
    }
  }

  lemma QuietIds(log: seq<Envelope>, log': seq<Envelope>, e: Envelope)
    requires log' == log + [e] && !IsSteeringEvent(e.event)
    ensures EnqueuedIds(log') == EnqueuedIds(log) && SettledIds(log') == SettledIds(log)
  {
    IdsAppend(log, e);
    assert EnqueuedIds(log) + [] == EnqueuedIds(log) && SettledIds(log) + [] == SettledIds(log);
  }

  lemma SteerTold(s: State, h: History, m: Uuid, text: string)
    requires SteeringInv(s, h) && s.currentTurnId.Some?
    ensures SteeringInv(Steer(s, m, text), h.(steered := h.steered + [s.nextUuid]))
  {
    MintTold(Taken(h, s), SteeringIds(s.steering), h, EnqueuedIds(s.log), SettledIds(s.log), s.nextUuid);
    SteeringIdsAppend(s.steering, SteeringMessage(s.nextUuid, m, text));
    assert Taken(h.(steered := h.steered + [s.nextUuid]), Steer(s, m, text)) == Taken(h, s);
    IdsAppend(s.log, Envelope(s.currentTurnId, s.currentTurn, Some(m), SteeringEnqueued(s.nextUuid, text)));
    assert SettledIds(s.log) + [] == SettledIds(s.log);
  }

  lemma SteerUntold(s: State, h: History, m: Uuid, text: string)
    requires SteeringInv(s, h) && s.currentTurnId.None?
    ensures SteeringInv(Steer(s, m, text),
                        h.(steered := h.steered + [s.nextUuid], unannounced := h.unannounced + {s.nextUuid}))
  {
    MintUntold(Taken(h, s), SteeringIds(s.steering), h, EnqueuedIds(s.log), SettledIds(s.log), s.nextUuid);
    SteeringIdsAppend(s.steering, SteeringMessage(s.nextUuid, m, text));
    assert Taken(h.(steered := h.steered + [s.nextUuid]), Steer(s, m, text)) == Taken(h, s);
  }

  lemma ClaimUntold(s: State, h: History, m: Option<Uuid>)
    requires SteeringInv(s, h) && s.currentTurnId.None?
    ensures SteeringInv(s.(steering := []), h.(untold := h.untold + IdSet(SteeringIds(s.steering))))
  {
    TakeUntold(Taken(h, s), SteeringIds(s.steering), h, EnqueuedIds(s.log), SettledIds(s.log), s.nextUuid);
  }

  lemma EmptyTold(s: State, h: History, e: Envelope)
    requires SteeringInv(s, h)
    requires e.event == SteeringDropped(SteeringIds(s.steering)) || e.event == SteeringClaimed(SteeringIds(s.steering))
    ensures SteeringInv(s.(steering := [], log := s.log + [e]), h)
  {
    TakeTold(Taken(h, s), SteeringIds(s.steering), h, EnqueuedIds(s.log), SettledIds(s.log), s.nextUuid);
    IdsAppend(s.log, e);
    assert EnqueuedIds(s.log) + [] == EnqueuedIds(s.log);
  }

  lemma BracketConserves(s: State, h: History)
    requires SteeringInv(s, h) && s.currentTurnId.Some?
    ensures SteeringInv(CloseBracket(s.(participants := 0, currentTurnId := None), s.currentTurnId.value, s.currentTurn), h)
  {
    var s1 := s;
    if s.steering != [] {
      var e := Envelope(s.currentTurnId, s.currentTurn, None, SteeringDropped(SteeringIds(s.steering)));
      s1 := s.(steering := [], log := s.log + [e]);
      EmptyTold(s, h, e);
    }
    var t := CloseBracket(s.(participants := 0, currentTurnId := None), s.currentTurnId.value, s.currentTurn);
    assert SteeringInv(s1, h) && s1.steering == [];
    assert t.log == s1.log + [Envelope(s.currentTurnId, s.currentTurn, None, TurnEnded)];
    AsideConserves(s1, t, h);
  }

  lemma FinishConserves(s: State, h: History, m: Uuid, o: Outcome)
    requires Inv(s) && SteeringInv(s, h) && m in s.tasks
    ensures SteeringInv(FinishParticipant(s, m, o), h)
  {
    var s1 := EndTask(s, m, o);
    FinishShape(s, m, o);
    AsideConserves(s, s1, h);
    if s.participants > 1 {
      AsideConserves(s1, FinishParticipant(s, m, o), h);
    } else {
      BracketConserves(s1, h);
    }
  }

  /** A torn-down or lost participant publishes nothing and leaves the steering queue alone. */
  lemma LeaveConserves(s: State, h: History, m: Uuid)
    requires Inv(s) && SteeringInv(s, h) && m in s.tasks
    ensures SteeringInv(AbandonParticipant(s, m), h) && SteeringInv(LoseReply(s, m), h)
  {
  }

  lemma OtherIsAside(cfg: Config, s: State, step: Step)
    requires Inv(s) && Enabled(s, step)
    requires !step.SteerFrom? && !step.Claim? && !step.Finish? && !step.Abandon? && !step.Lose?
    ensures Aside(s, Apply(cfg, s, step))
  {
    if step.ResumeLoop? {
      ResumeIsAside(cfg, s);
    } else if step.AdmitMessage? {
      AdmitIsAside(cfg, s, step.message);
    }
  }

  lemma AdmitIsAside(cfg: Config, s: State, m: Message)
    ensures Aside(s, Admit(cfg, s, m).0)
  {
  }

  lemma ResumeIsAside(cfg: Config, s: State)
    requires Inv(s) && Enabled(s, ResumeLoop)
    ensures Aside(s, Resume(cfg, s))
  {
  }

  /** A claim that takes nothing. */
  lemma NothingClaimed(h: History, s: State, inTool: bool, m: Option<Uuid>)
    requires inTool || s.steering == []
    ensures ClaimSteering(s, inTool, m) == s && Observe(h, s, Claim(inTool, m)) == h
  {
    if s.steering == [] {
      assert h.untold + IdSet(SteeringIds([])) == h.untold;
    }
  }

  lemma ClaimShape(h: History, s: State, m: Option<Uuid>)
    requires s.steering != []
    ensures s.currentTurnId.Some? ==>
              && ClaimSteering(s, false, m)
                 == s.(steering := [], log := s.log + [Envelope(s.currentTurnId, s.currentTurn, m, SteeringClaimed(SteeringIds(s.steering)))])
              && Observe(h, s, Claim(false, m)) == h
    ensures s.currentTurnId.None? ==>
              && ClaimSteering(s, false, m) == s.(steering := [])
              && Observe(h, s, Claim(false, m)) == h.(untold := h.untold + IdSet(SteeringIds(s.steering)))
  {
  }

  lemma ClaimConserves(s: State, h: History, inTool: bool, m: Option<Uuid>)
    requires SteeringInv(s, h)
    ensures SteeringInv(ClaimSteering(s, inTool, m), Observe(h, s, Claim(inTool, m)))
  {
    if inTool || s.steering == [] {
      NothingClaimed(h, s, inTool, m);
    } else {
      ClaimShape(h, s, m);
      if s.currentTurnId.Some? {
        EmptyTold(s, h, Envelope(s.currentTurnId, s.currentTurn, m, SteeringClaimed(SteeringIds(s.steering))));
      } else {
        ClaimUntold(s, h, m);
      }
    }
  }

  lemma StepConserves(cfg: Config, s: State, h: History, step: Step)
    requires Inv(s) && SteeringInv(s, h)
    ensures SteeringInv(Apply(cfg, s, step), Observe(h, s, step))
  {
    if Enabled(s, step) {
      match step
      case SteerFrom(m, text) =>
        if s.currentTurnId.Some? {
          SteerTold(s, h, m, text);
        } else {
          SteerUntold(s, h, m, text);
        }
      case Claim(t, c) => ClaimConserves(s, h, t, c);
      case Finish(m, o) => FinishConserves(s, h, m, o);
      case Abandon(m) => LeaveConserves(s, h, m);
      case Lose(m) => LeaveConserves(s, h, m);
      case _ =>
        OtherIsAside(cfg, s, step);
        AsideConserves(s, Apply(cfg, s, step), h);
    }
  }

  lemma {:induction false} RunConserves(cfg: Config, s: State, h: History, steps: seq<Step>)
    requires Inv(s) && SteeringInv(s, h)
    ensures SteeringInv(Exec(cfg, s, steps), HistoryOf(cfg, s, h, steps))
    decreases |steps|
  {
    if |steps| > 0 {
      StepKeeps(cfg, s, steps[0]);
      StepConserves(cfg, s, h, steps[0]);
      RunConserves(cfg, Apply(cfg, s, steps[0]), Observe(h, s, steps[0]), steps[1..]);
    }
  }

  lemma InitBalances()
    ensures SteeringInv(INIT, NOTHING_YET)
  {
  }

  /** The invariant of the state a run from the start reaches. */
  lemma RunBalances(cfg: Config, steps: seq<Step>)
    ensures SteeringInv(Exec(cfg, INIT, steps), HistoryOf(cfg, INIT, NOTHING_YET, steps))
  {
    InitBalances();
    RunConserves(cfg, INIT, NOTHING_YET, steps);
  }

  // ---- The promises --------------------------------------------------------------------------

  /** In every run each id that was minted is taken from the queue at most once and in order, or
      still queued; the log shows all of it but what happened outside a turn; and between turns
      nothing is queued but what was queued there, unless a participant was torn down. */
  lemma SteeringConservation(cfg: Config, steps: seq<Step>)
    ensures var s, h := Exec(cfg, INIT, steps), HistoryOf(cfg, INIT, NOTHING_YET, steps);
            && h.steered == Taken(h, s) + SteeringIds(s.steering)
            && (forall i, j :: 0 <= i < j < |h.steered| ==> h.steered[i] < h.steered[j])
            && EnqueuedIds(s.log) == Without(h.steered, h.unannounced)
            && SettledIds(s.log) == Without(Taken(h, s), h.untold)
            && (s.currentTurnId.None? && !s.abandoned ==> forall id <- SteeringIds(s.steering) :: id in h.unannounced)
  {
    RunBalances(cfg, steps);
  }

  /** The log's own account adds up, what it settles followed by the queue being what it
      announces, exactly when the ids queued outside a turn are the ids claimed outside one. */
  lemma LogAccountsIff(cfg: Config, steps: seq<Step>)
    ensures var s, h := Exec(cfg, INIT, steps), HistoryOf(cfg, INIT, NOTHING_YET, steps);
            SettledIds(s.log) + SteeringIds(s.steering) == EnqueuedIds(s.log) <==> h.untold == h.unannounced
  {
    var s, h := Exec(cfg, INIT, steps), HistoryOf(cfg, INIT, NOTHING_YET, steps);
    RunBalances(cfg, steps);
    SettledThenQueued(Taken(h, s), SteeringIds(s.steering), h, EnqueuedIds(s.log), SettledIds(s.log), s.nextUuid);
    if Without(h.steered, h.untold) == Without(h.steered, h.unannounced) {
      SameGone(h.steered, h.untold, h.unannounced);
    }
  }

  lemma SettledThenQueued(taken: seq<Uuid>, queue: seq<Uuid>, h: History, enqueued: seq<Uuid>, settled: seq<Uuid>, bound: nat)
    requires Ledger(taken, queue, h, enqueued, settled, bound)
    ensures settled + queue == Without(h.steered, h.untold)
    ensures forall id <- h.untold :: id in h.steered
  {
    Apart(taken, queue, bound);
    WithoutAppend(taken, queue, h.untold);
    WithoutNone(queue, h.untold);
  }

  lemma SameGone(ids: seq<Uuid>, a: set<Uuid>, b: set<Uuid>)
    requires Without(ids, a) == Without(ids, b) && (forall id <- a :: id in ids) && (forall id <- b :: id in ids)
    ensures a == b
  {
    forall id
      ensures id in a <==> id in b
    {
      WithoutHas(ids, a, id);
      WithoutHas(ids, b, id);
    }
  }

  /** The queue stays empty between turns exactly when `steer` is called with a turn open:
      the text is queued before the publish that raises. */
  lemma SteerKeepsQuietQueueIff(s: State, m: Uuid, text: string)
    requires s.currentTurnId.None? ==> s.steering == []
    ensures var t := Steer(s, m, text);
            (t.currentTurnId.None? ==> t.steering == []) <==> s.currentTurnId.Some?
  {
  }
}
