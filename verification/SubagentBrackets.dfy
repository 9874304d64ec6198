/** The sent and received markers of one child on its parent's stream: the grammar of brackets, and
    exactly which steps of a run, following each other, break it. */
module SubagentBrackets {
  import opened Protocol
  import opened TurnGrammar
  import T = TurnMachine
  import S = TurnSafety
  import L = TurnLog
  import H = TurnTheorems
  import opened TurnConsumer
  import opened SubagentDriver
  import opened SubagentTheorems

  // ---- The bracket grammar of the parent's stream -------------------------------------

  /** `Between(last, ok)`: no bracket is open; the last one closed was turn `last`. */
  datatype Bracket = Between(last: nat, ok: bool) | Inside(turn: nat)

  /** A marker opens a bracket whose number is not below the last one, and is above it when
      that one closed ok; a repeated marker repeats only the open bracket's own number; a
      close closes the open bracket. */
  function AcceptMarker(b: Bracket, m: Marker): Option<Bracket> {
    match (b, m)
    case (Between(last, ok), MessageSent(n, _)) =>
      if last <= n && (ok ==> last < n) then Some(Inside(n)) else None
    case (Inside(n), MessageSent(n', _)) => if n == n' then Some(b) else None
    case (Inside(n), ReplyReceived(n', ok)) => if n == n' then Some(Between(n, ok)) else None
    case (Between(_, _), ReplyReceived(_, _)) => None
  }

  function ScanMarkers(ms: seq<Marker>): Option<Bracket> {
    if ms == [] then Some(Between(0, false))
    else
      var b := ScanMarkers(ms[..|ms| - 1]);
      if b.None? then None else AcceptMarker(b.value, ms[|ms| - 1])
  }

  /** Two markers that may stand next to each other. */
  predicate Fits(a: Marker, b: Marker) {
    match (a, b)
    case (MessageSent(n, _), MessageSent(n', _)) => n == n'
    case (MessageSent(n, _), ReplyReceived(n', _)) => n == n'
    case (ReplyReceived(n, ok), MessageSent(n', _)) => n <= n' && (ok ==> n < n')
    case (ReplyReceived(_, _), ReplyReceived(_, _)) => false
  }

  function BracketAfter(m: Marker): Bracket {
    match m
    case MessageSent(n, _) => Inside(n)
    case ReplyReceived(n, ok) => Between(n, ok)
  }

  ghost predicate AllFit(ms: seq<Marker>) {
    && (ms != [] ==> ms[0].MessageSent?)
    && forall i :: 0 < i < |ms| ==> Fits(ms[i - 1], ms[i])
  }

  /** The bracket grammar is a condition on neighbours. */
  lemma {:induction false} GrammarIsLocal(ms: seq<Marker>)
    ensures ScanMarkers(ms).Some? <==> AllFit(ms)
    ensures ScanMarkers(ms).Some? && ms != [] ==> ScanMarkers(ms).value == BracketAfter(ms[|ms| - 1])
    decreases |ms|
  {
    if ms != [] {
      var before := ms[..|ms| - 1];
      GrammarIsLocal(before);
      assert forall i :: 0 <= i < |before| ==> before[i] == ms[i];
      if |ms| > 1 {
        NeighbourAccepts(ms[|ms| - 2], ms[|ms| - 1]);
        assert AllFit(ms) <==> AllFit(before) && Fits(ms[|ms| - 2], ms[|ms| - 1]);
      }
    }
  }

  lemma NeighbourAccepts(a: Marker, b: Marker)
    ensures AcceptMarker(BracketAfter(a), b) == if Fits(a, b) then Some(BracketAfter(b)) else None
  {
  }

  // ---- Which step breaks the brackets, after which step -----------------------------------

  function Before(cfg: T.Config, steps: seq<Step>, i: nat): State
    requires i <= |steps|
  {
    Exec(cfg, Start(T.INIT), steps[..i])
  }

  function After(cfg: T.Config, steps: seq<Step>): State {
    Exec(cfg, Start(T.INIT), steps)
  }

  /** The turn number the message of call `k` was accepted under. */
  function Number(s: State, k: nat): nat {
    if k in s.accepted then s.accepted[k].turnNumber else 0
  }

  predicate Answers(s: State, k: nat) {
    k < |s.calls| && s.calls[k].Holding? && s.calls[k].attempt.Over? && ResultOf(s.calls[k].attempt.consumed).Answered?
  }

  /** The step publishes a marker. */
  predicate Speaks(cfg: T.Config, s: State, step: Step) {
    Enabled(cfg, s, step) && (step.PublishMarker? || step.LateMarker? || (step.Deliver? && step.turnOpen))
  }

  function MarkerOf(s: State, step: Step): Marker {
    match step
    case PublishMarker(k) =>
      MessageSent(Number(s, k), if k < |s.calls| && s.calls[k].Holding? then s.calls[k].from else 0)
    case LateMarker(k) => MessageSent(Number(s, k), if k in s.strays then s.strays[k].from else 0)
    case Deliver(k, _) => ReplyReceived(Number(s, k), Answers(s, k))
    case _ => MessageSent(0, 0)
  }

  /** Two steps, `a` in state `s` and later `b` in state `t`, that do not go together when no
      marker is published between them. A bracket is left to nobody by a call that was cut
      short, by a close that found no turn open, and by a marker of an attempt given up: then
      a marker of another turn may not follow. And a marker of an attempt given up may not
      come inside another turn's bracket, nor after its own turn was answered or a later one
      closed. */
  predicate Clash(s: State, a: Step, t: State, b: Step) {
    match (a, b)
    case (FailOtherwise(k), PublishMarker(l)) => k in s.tellers && Number(t, k) != Number(t, l)
    case (Deliver(k, false), PublishMarker(l)) => Number(t, k) != Number(t, l)
    case (LateMarker(k), PublishMarker(l)) => Number(t, k) != Number(t, l)
    case (LateMarker(k), Deliver(l, _)) => Number(t, k) != Number(t, l)
    case (LateMarker(k), LateMarker(l)) => Number(t, k) != Number(t, l)
    case (PublishMarker(k), LateMarker(l)) => Number(t, k) != Number(t, l)
    case (Deliver(k, true), LateMarker(l)) =>
      Number(t, l) < Number(t, k) || (Answers(s, k) && Number(t, l) == Number(t, k))
    case _ => false
  }

  /** No marker is published by the steps after step `i`. */
  ghost predicate Silent(cfg: T.Config, steps: seq<Step>, i: nat) {
    forall x :: i < x < |steps| ==> !Speaks(cfg, Before(cfg, steps, x), steps[x])
  }

  /** After the run `steps`, the marker that `step` publishes clashes with step `i`. */
  ghost predicate SpoilsNext(cfg: T.Config, steps: seq<Step>, i: nat, step: Step) {
    && i < |steps| && Silent(cfg, steps, i)
    && Enabled(cfg, Before(cfg, steps, i), steps[i]) && Speaks(cfg, After(cfg, steps), step)
    && Clash(Before(cfg, steps, i), steps[i], After(cfg, steps), step)
  }

  ghost predicate Spoils(cfg: T.Config, steps: seq<Step>, i: nat, j: nat) {
    j < |steps| && SpoilsNext(cfg, steps[..j], i, steps[j])
  }

  // ---- Runs, one step longer ----------------------------------------------------------------

  lemma OneMore(cfg: T.Config, steps: seq<Step>, step: Step)
    ensures After(cfg, steps + [step]) == Apply(cfg, After(cfg, steps), step)
  {
    ExecAppend(cfg, Start(T.INIT), steps, [step]);
    var s := After(cfg, steps);
    assert Exec(cfg, s, [step]) == Exec(cfg, Apply(cfg, s, step), []);
  }

  lemma BeforeNext(cfg: T.Config, steps: seq<Step>, i: nat)
    requires i < |steps|
    ensures Before(cfg, steps, i + 1) == Apply(cfg, Before(cfg, steps, i), steps[i])
  {
    assert steps[..i + 1] == steps[..i] + [steps[i]];
    OneMore(cfg, steps[..i], steps[i]);
  }

  lemma BeforeEnd(cfg: T.Config, steps: seq<Step>)
    ensures Before(cfg, steps, |steps|) == After(cfg, steps)
  {
    assert steps[..|steps|] == steps;
  }

  lemma BeforePrefix(cfg: T.Config, steps: seq<Step>, more: seq<Step>)
    ensures forall i: nat :: i <= |steps| ==> Before(cfg, steps + more, i) == Before(cfg, steps, i)
  {
    forall i: nat | i <= |steps|
      ensures Before(cfg, steps + more, i) == Before(cfg, steps, i)
    {
      assert (steps + more)[..i] == steps[..i];
    }
  }

  // ---- What one step publishes ----------------------------------------------------------------

  /** A step says `m` of call `k`. */
  predicate Says(s: State, t: State, k: nat, m: Marker, late: bool) {
    && t.markers == s.markers + [m] && t.tellers == s.tellers + [k]
    && t.late == (if late then s.late + {|s.markers|} else s.late)
    && t.accepted == s.accepted && k in s.accepted
  }

  lemma SaysPublished(s: State, k: nat)
    requires Inv(s) && k < |s.calls| && s.calls[k].Holding? && s.calls[k].attempt.Sent?
    ensures Says(s, MarkStep(s, k), k, MarkerOf(s, PublishMarker(k)), false)
  {
    assert CallSound(s, k);
  }

  lemma SaysClosed(s: State, k: nat)
    requires Inv(s) && k < |s.calls| && s.calls[k].Holding? && s.calls[k].attempt.Over?
    ensures Says(s, DeliverStep(s, k, true), k, MarkerOf(s, Deliver(k, true)), false)
  {
    OverIsOwn(s, k);
  }

  lemma SpeakerSteps(cfg: T.Config, s: State, step: Step)
    requires Speaks(cfg, s, step)
    ensures step.PublishMarker? ==> AttemptOf(s, step.k).Some? && s.calls[step.k].attempt.Sent? && Apply(cfg, s, step) == MarkStep(s, step.k)
    ensures step.LateMarker? ==> step.k in s.strays && step.k in s.accepted && Apply(cfg, s, step) == TellLate(s, step.k)
    ensures step.Deliver? ==>
              AttemptOf(s, step.k).Some? && s.calls[step.k].attempt.Over? && Apply(cfg, s, step) == DeliverStep(s, step.k, true)
  {
  }

  lemma SaysMarker(cfg: T.Config, s: State, step: Step)
    requires Inv(s) && Speaks(cfg, s, step)
    ensures Says(s, Apply(cfg, s, step), TellerOf(step), MarkerOf(s, step), step.LateMarker?)
  {
    SpeakerSteps(cfg, s, step);
    if step.PublishMarker? {
      SaysPublished(s, step.k);
      assert step == PublishMarker(step.k);
    } else if step.Deliver? {
      SaysClosed(s, step.k);
      assert step == Deliver(step.k, true);
    } else {
      SaysLate(s, step.k);
      assert step == LateMarker(step.k);
    }
  }

  lemma SaysLate(s: State, k: nat)
    requires k in s.strays && k in s.accepted
    ensures Says(s, TellLate(s, k), k, MarkerOf(s, LateMarker(k)), true)
  {
  }

  function TellerOf(step: Step): nat {
    match step
    case PublishMarker(k) => k
    case LateMarker(k) => k
    case Deliver(k, _) => k
    case _ => 0
  }

  lemma SaysNothing(cfg: T.Config, s: State, step: Step)
    requires !Speaks(cfg, s, step)
    ensures var t := Apply(cfg, s, step);
            t.markers == s.markers && t.tellers == s.tellers && t.late == s.late
  {
    if Enabled(cfg, s, step) {
      match step
      case Submit(k) => SubmitSaysNothing(cfg, s, k);
      case _ =>
    }
  }

  lemma SubmitSaysNothing(cfg: T.Config, s: State, k: nat)
    requires k < |s.calls| && s.calls[k].Holding?
    ensures var t := SubmitStep(cfg, s, k);
            t.markers == s.markers && t.tellers == s.tellers && t.late == s.late
  {
  }

  /** What was said after step `i` is all that was said since. */
  lemma {:induction false} SilentSays(cfg: T.Config, steps: seq<Step>, i: nat)
    requires i < |steps| && Silent(cfg, steps, i)
    ensures var s, t := Before(cfg, steps, i + 1), After(cfg, steps);
            t.markers == s.markers && t.tellers == s.tellers && t.late == s.late
    decreases |steps|
  {
    if i + 1 == |steps| {
      BeforeEnd(cfg, steps);
    } else {
      var n := |steps| - 1;
      var before := steps[..n];
      assert steps == before + [steps[n]];
      SilentBefore(cfg, before, [steps[n]], i);
      SilentSays(cfg, before, i);
      BeforePrefix(cfg, before, [steps[n]]);
      OneMore(cfg, before, steps[n]);
      SaysNothing(cfg, After(cfg, before), steps[n]);
    }
  }

  lemma SilentBefore(cfg: T.Config, steps: seq<Step>, more: seq<Step>, i: nat)
    requires Silent(cfg, steps + more, i)
    ensures Silent(cfg, steps, i)
    ensures i < |steps| && |more| > 0 ==> !Speaks(cfg, After(cfg, steps), more[0])
  {
    BeforePrefix(cfg, steps, more);
    BeforeEnd(cfg, steps);
    forall x | i < x < |steps|
      ensures !Speaks(cfg, Before(cfg, steps, x), steps[x])
    {
      assert !Speaks(cfg, Before(cfg, steps + more, x), (steps + more)[x]);
    }
    if i < |steps| && |more| > 0 {
      assert !Speaks(cfg, Before(cfg, steps + more, |steps|), (steps + more)[|steps|]);
    }
  }

  lemma SilentAfter(cfg: T.Config, steps: seq<Step>, step: Step, i: nat)
    requires i < |steps| && Silent(cfg, steps, i) && !Speaks(cfg, After(cfg, steps), step)
    ensures Silent(cfg, steps + [step], i)
  {
    BeforePrefix(cfg, steps, [step]);
    BeforeEnd(cfg, steps);
  }

  /** An acceptance stays, with its number. */
  lemma {:induction false} NumberStays(cfg: T.Config, s: State, steps: seq<Step>, k: nat)
    requires k in s.accepted
    ensures k in Exec(cfg, s, steps).accepted && Number(Exec(cfg, s, steps), k) == Number(s, k)
  {
    SendsOnce(cfg, s, steps, k);
  }

  lemma NumberSince(cfg: T.Config, steps: seq<Step>, i: nat, k: nat)
    requires i <= |steps| && k in Before(cfg, steps, i).accepted
    ensures k in After(cfg, steps).accepted && Number(After(cfg, steps), k) == Number(Before(cfg, steps, i), k)
  {
    assert steps == steps[..i] + steps[i..];
    ExecAppend(cfg, Start(T.INIT), steps[..i], steps[i..]);
    NumberStays(cfg, Before(cfg, steps, i), steps[i..], k);
  }

  // ---- The step that spoke last -----------------------------------------------------------------

  /** Step `p` published the run's last marker. */
  ghost predicate SpokeLast(cfg: T.Config, steps: seq<Step>, p: nat) {
    p < |steps| && Speaks(cfg, Before(cfg, steps, p), steps[p]) && Silent(cfg, steps, p)
  }

  lemma {:induction false} LastSpeaker(cfg: T.Config, steps: seq<Step>) returns (p: nat)
    requires After(cfg, steps).markers != []
    ensures SpokeLast(cfg, steps, p)
    decreases |steps|
  {
    var n := |steps| - 1;
    var before := steps[..n];
    assert steps == before + [steps[n]];
    OneMore(cfg, before, steps[n]);
    BeforePrefix(cfg, before, [steps[n]]);
    BeforeEnd(cfg, before);
    if Speaks(cfg, After(cfg, before), steps[n]) {
      p := n;
    } else {
      SaysNothing(cfg, After(cfg, before), steps[n]);
      p := LastSpeaker(cfg, before);
      SilentAfter(cfg, before, steps[n], p);
    }
  }

  lemma LastMarkerIs(cfg: T.Config, steps: seq<Step>, p: nat)
    requires SpokeLast(cfg, steps, p)
    ensures var s, t, n := Before(cfg, steps, p), After(cfg, steps), |After(cfg, steps).markers| - 1;
            && n >= 0 && t.markers[n] == MarkerOf(s, steps[p]) && |t.tellers| == n + 1 && t.tellers[n] == TellerOf(steps[p])
            && (n in t.late <==> steps[p].LateMarker?)
            && TellerOf(steps[p]) in t.accepted && Number(t, TellerOf(steps[p])) == Number(s, TellerOf(steps[p]))
  {
    EveryRunKeeps(cfg, steps[..p]);
    var s := Before(cfg, steps, p);
    SaysMarker(cfg, s, steps[p]);
    BeforeNext(cfg, steps, p);
    SilentSays(cfg, steps, p);
    NumberSince(cfg, steps, p, TellerOf(steps[p]));
  }

  // ---- The turn of the bracket that the holder is in ---------------------------------------------

  /** While brackets are well-formed and the holder's marker is out, the open bracket is the
      holder's turn's. */
  ghost predicate HolderTurn(s: State) {
    ScanMarkers(s.markers).Some? && s.serving < |s.calls| && s.calls[s.serving].Holding? && s.serving in s.tellers ==>
      && s.markers != [] && s.markers[|s.markers| - 1].MessageSent?
      && s.markers[|s.markers| - 1].turn == Number(s, s.serving)
  }

  /** Longer sequences of markers are well-formed only if shorter ones are, and the last fits. */
  lemma ScanLonger(ms: seq<Marker>, m: Marker)
    ensures ScanMarkers(ms + [m]).Some?
            <==> ScanMarkers(ms).Some? && (if ms == [] then m.MessageSent? else Fits(ms[|ms| - 1], m))
  {
    GrammarIsLocal(ms);
    GrammarIsLocal(ms + [m]);
    var all := ms + [m];
    assert forall i :: 0 <= i < |ms| ==> all[i] == ms[i];
    if ms != [] {
      assert AllFit(all) <==> AllFit(ms) && Fits(all[|ms| - 1], all[|ms|]);
    }
  }

  /** A holder that has just passed the gate, and a ticket nobody serves yet, has told nothing. */
  lemma TellersWereServed(s: State, k: nat)
    requires Inv(s) && k in s.tellers
    ensures k in s.accepted && k <= s.serving && k < |s.calls| && !IsWaiting(s.calls[k])
  {
    var i :| 0 <= i < |s.tellers| && s.tellers[i] == k;
    assert s.tellers[i] in s.accepted;
    assert CallSound(s, k);
  }

  lemma TurnOfLate(s: State, k: nat)
    requires Gated(s) && TellersSound(s) && HolderSpoke(s) && HolderTurn(s) && k in s.strays && k in s.accepted
    ensures HolderTurn(TellLate(s, k))
  {
    ScanLonger(s.markers, MarkerOf(s, LateMarker(k)));
  }

  lemma TurnOfPublished(s: State, k: nat)
    requires Inv(s) && k < |s.calls| && s.calls[k].Holding? && s.calls[k].attempt.Sent?
    ensures HolderTurn(MarkStep(s, k))
  {
    HolderServes(s, k);
    SaysPublished(s, k);
  }

  lemma NextHasNotTold(s: State, k: nat)
    requires Inv(s) && s.serving < k
    ensures k !in s.tellers
  {
    forall i | 0 <= i < |s.tellers|
      ensures s.tellers[i] != k
    {
      assert s.tellers[i] in s.accepted;
    }
  }

  lemma TurnOfClosed(s: State, k: nat)
    requires Inv(s) && k < |s.calls| && s.calls[k].Holding? && s.calls[k].attempt.Over?
    ensures HolderTurn(DeliverStep(s, k, true))
  {
    HolderServes(s, k);
    NextHasNotTold(s, k + 1);
    NextIsSilent(s, k);
  }

  lemma NextIsSilent(s: State, k: nat)
    requires k == s.serving < |s.calls| && s.calls[k].Holding? && s.calls[k].attempt.Over? && k + 1 !in s.tellers
    ensures HolderTurn(DeliverStep(s, k, true))
  {
    var t := DeliverStep(s, k, true);
    assert t.serving == k + 1 && t.tellers == s.tellers + [k];
  }

  lemma TurnOfSpeaker(cfg: T.Config, s: State, step: Step)
    requires Inv(s) && HolderTurn(s) && Speaks(cfg, s, step)
    ensures HolderTurn(Apply(cfg, s, step))
  {
    SpeakerSteps(cfg, s, step);
    if step.PublishMarker? {
      TurnOfPublished(s, step.k);
    } else if step.LateMarker? {
      TurnOfLate(s, step.k);
    } else {
      TurnOfClosed(s, step.k);
    }
  }

  lemma TurnOfOther(cfg: T.Config, s: State, step: Step)
    requires Inv(s) && HolderTurn(s) && !Speaks(cfg, s, step)
    ensures HolderTurn(Apply(cfg, s, step))
  {
    var t := Apply(cfg, s, step);
    SaysNothing(cfg, s, step);
    StepKeeps(cfg, s, step);
    if t.serving < |t.calls| && t.calls[t.serving].Holding? && t.serving in t.tellers {
      TellersWereServed(s, t.serving);
      AcceptedByStep(cfg, s, step, t.serving);
      SameHolder(cfg, s, step);
    }
  }

  lemma SameHolder(cfg: T.Config, s: State, step: Step)
    requires Gated(s)
    requires var t := Apply(cfg, s, step);
             && t.serving < |t.calls| && t.calls[t.serving].Holding?
             && t.serving < |s.calls| && !IsWaiting(s.calls[t.serving]) && t.serving <= s.serving
    ensures Apply(cfg, s, step).serving == s.serving && s.calls[s.serving].Holding?
  {
    ServingRises(cfg, s, step);
  }

  lemma ServingRises(cfg: T.Config, s: State, step: Step)
    requires Gated(s)
    ensures s.serving <= Apply(cfg, s, step).serving
  {
    if Enabled(cfg, s, step) {
      match step
      case Submit(k) => ServingAtSubmit(cfg, s, k);
      case _ =>
    }
  }

  lemma ServingAtSubmit(cfg: T.Config, s: State, k: nat)
    requires k < |s.calls| && s.calls[k].Holding?
    ensures s.serving <= SubmitStep(cfg, s, k).serving
  {
  }

  lemma {:induction false} TurnOfRun(cfg: T.Config, s: State, steps: seq<Step>)
    requires Inv(s) && HolderTurn(s)
    ensures HolderTurn(Exec(cfg, s, steps))
    decreases |steps|
  {
    if |steps| > 0 {
      StepKeeps(cfg, s, steps[0]);
      if Speaks(cfg, s, steps[0]) {
        TurnOfSpeaker(cfg, s, steps[0]);
      } else {
        TurnOfOther(cfg, s, steps[0]);
      }
      TurnOfRun(cfg, Apply(cfg, s, steps[0]), steps[1..]);
    }
  }

  lemma TurnOfEveryRun(cfg: T.Config, steps: seq<Step>)
    ensures HolderTurn(After(cfg, steps))
  {
    EveryRunKeeps(cfg, []);
    TurnOfRun(cfg, Start(T.INIT), steps);
  }

  // ---- A call that leaves its bracket open --------------------------------------------------------

  lemma LeftByStep(cfg: T.Config, s: State, step: Step, k: nat)
    requires k < |s.calls| && !LeftOpen(s.calls[k]) && k < |Apply(cfg, s, step).calls| && LeftOpen(Apply(cfg, s, step).calls[k])
    ensures Enabled(cfg, s, step) && (step == FailOtherwise(k) || step == Deliver(k, false))
  {
    if Enabled(cfg, s, step) {
      match step
      case Submit(j) => NotLeftBySubmit(cfg, s, j, k);
      case FailOtherwise(j) =>
      case Deliver(j, _) =>
      case _ => NotLeftByOther(cfg, s, step, k);
    }
  }

  lemma NotLeftByOther(cfg: T.Config, s: State, step: Step, k: nat)
    requires Enabled(cfg, s, step) && !step.Submit? && !step.FailOtherwise? && !step.Deliver?
    requires k < |s.calls| && !LeftOpen(s.calls[k])
    ensures k < |Apply(cfg, s, step).calls| && !LeftOpen(Apply(cfg, s, step).calls[k])
  {
    if IsAttempt(step) {
      AttemptElsewhere(cfg, s, step, k);
    }
  }

  lemma NotLeftBySubmit(cfg: T.Config, s: State, j: nat, k: nat)
    requires j < |s.calls| && s.calls[j].Holding? && k < |s.calls| && !LeftOpen(s.calls[k])
    ensures k < |SubmitStep(cfg, s, j).calls| && !LeftOpen(SubmitStep(cfg, s, j).calls[k])
  {
  }

  /** Between a state in which call `k` is not over and one in which it has left its bracket to
      nobody lies the step by which it did. */
  lemma {:induction false} LeftSince(cfg: T.Config, steps: seq<Step>, p: nat, k: nat) returns (i: nat)
    requires p <= |steps|
    requires k < |Before(cfg, steps, p).calls| && !LeftOpen(Before(cfg, steps, p).calls[k])
    requires k < |After(cfg, steps).calls| && LeftOpen(After(cfg, steps).calls[k])
    ensures p <= i < |steps| && Enabled(cfg, Before(cfg, steps, i), steps[i])
    ensures steps[i] == FailOtherwise(k) || steps[i] == Deliver(k, false)
    decreases |steps|
  {
    BeforeEnd(cfg, steps);
    var n := |steps| - 1;
    var before := steps[..n];
    assert steps == before + [steps[n]];
    OneMore(cfg, before, steps[n]);
    BeforePrefix(cfg, before, [steps[n]]);
    BeforeEnd(cfg, before);
    CallsStay(cfg, steps, p, n, k);
    if LeftOpen(After(cfg, before).calls[k]) {
      i := LeftSince(cfg, before, p, k);
    } else {
      LeftByStep(cfg, After(cfg, before), steps[n], k);
      i := n;
    }
  }

  lemma CallsGrowByStep(cfg: T.Config, s: State, step: Step)
    ensures |s.calls| <= |Apply(cfg, s, step).calls|
  {
    if Enabled(cfg, s, step) {
      match step
      case Submit(j) => CallsAtSubmit(cfg, s, j);
      case _ =>
    }
  }

  lemma CallsAtSubmit(cfg: T.Config, s: State, j: nat)
    requires j < |s.calls| && s.calls[j].Holding?
    ensures |SubmitStep(cfg, s, j).calls| == |s.calls|
  {
  }

  lemma {:induction false} CallsStay(cfg: T.Config, steps: seq<Step>, i: nat, j: nat, k: nat)
    requires i <= j <= |steps| && k < |Before(cfg, steps, i).calls|
    ensures k < |Before(cfg, steps, j).calls|
    decreases j - i
  {
    if i < j {
      CallsStay(cfg, steps, i, j - 1, k);
      BeforeNext(cfg, steps, j - 1);
      CallsGrowByStep(cfg, Before(cfg, steps, j - 1), steps[j - 1]);
    }
  }

  // ---- Clashing steps do not fit -------------------------------------------------------------------

  lemma ClashesDoNotFit(cfg: T.Config, steps: seq<Step>, i: nat, step: Step)
    requires SpoilsNext(cfg, steps, i, step) && ScanMarkers(After(cfg, steps).markers).Some?
    ensures var t := After(cfg, steps); t.markers != [] && !Fits(t.markers[|t.markers| - 1], MarkerOf(t, step))
  {
    var s := Before(cfg, steps, i);
    EveryRunKeeps(cfg, steps[..i]);
    if Speaks(cfg, s, steps[i]) {
      assert SpokeLast(cfg, steps, i);
      LastMarkerIs(cfg, steps, i);
    } else {
      AbandonedBracket(cfg, steps, i, CallOf(steps[i]));
    }
  }

  function CallOf(step: Step): nat {
    match step
    case FailOtherwise(k) => k
    case Deliver(k, _) => k
    case _ => 0
  }

  /** The bracket that call `k` leaves open is the last one, and its turn is the call's. */
  lemma LeavesOwnBracket(cfg: T.Config, s: State, step: Step, k: nat)
    requires Inv(s) && HolderTurn(s) && ScanMarkers(s.markers).Some? && Enabled(cfg, s, step)
    requires (step == FailOtherwise(k) && k in s.tellers) || step == Deliver(k, false)
    ensures k in s.accepted && s.markers != [] && s.markers[|s.markers| - 1].MessageSent?
    ensures s.markers[|s.markers| - 1].turn == Number(s, k)
  {
    HolderServes(s, k);
    TellersWereServed(s, k);
  }

  lemma AbandonedBracket(cfg: T.Config, steps: seq<Step>, i: nat, k: nat)
    requires i < |steps| && Silent(cfg, steps, i) && Enabled(cfg, Before(cfg, steps, i), steps[i])
    requires (steps[i] == FailOtherwise(k) && k in Before(cfg, steps, i).tellers) || steps[i] == Deliver(k, false)
    requires ScanMarkers(After(cfg, steps).markers).Some?
    ensures var t := After(cfg, steps);
            t.markers != [] && t.markers[|t.markers| - 1].MessageSent? && t.markers[|t.markers| - 1].turn == Number(t, k)
  {
    var s := Before(cfg, steps, i);
    BeforeNext(cfg, steps, i);
    SaysNothing(cfg, s, steps[i]);
    SilentSays(cfg, steps, i);
    EveryRunKeeps(cfg, steps[..i]);
    TurnOfEveryRun(cfg, steps[..i]);
    LeavesOwnBracket(cfg, s, steps[i], k);
    NumberSince(cfg, steps, i, k);
  }

  // ---- What does not fit clashes --------------------------------------------------------------------

  lemma LateMisfitClashes(cfg: T.Config, steps: seq<Step>, p: nat, step: Step)
    requires SpokeLast(cfg, steps, p) && Speaks(cfg, After(cfg, steps), step) && (step.LateMarker? || steps[p].LateMarker?)
    requires var t := After(cfg, steps); t.markers != [] && !Fits(t.markers[|t.markers| - 1], MarkerOf(t, step))
    ensures SpoilsNext(cfg, steps, p, step)
  {
    LastMarkerIs(cfg, steps, p);
  }

  /** A marker that does not fit the last one has a step that it clashes with. */
  lemma MisfitsClash(cfg: T.Config, steps: seq<Step>, step: Step) returns (i: nat)
    requires Speaks(cfg, After(cfg, steps), step)
    requires var t := After(cfg, steps); t.markers != [] && !Fits(t.markers[|t.markers| - 1], MarkerOf(t, step))
    ensures SpoilsNext(cfg, steps, i, step)
  {
    var p := LastSpeaker(cfg, steps);
    if step.LateMarker? || steps[p].LateMarker? {
      LateMisfitClashes(cfg, steps, p, step);
      i := p;
    } else {
      i := HolderMisfitClashes(cfg, steps, p, step);
    }
  }

  lemma HolderMisfitClashes(cfg: T.Config, steps: seq<Step>, p: nat, step: Step) returns (i: nat)
    requires SpokeLast(cfg, steps, p) && Speaks(cfg, After(cfg, steps), step) && !step.LateMarker? && !steps[p].LateMarker?
    requires var t := After(cfg, steps); t.markers != [] && !Fits(t.markers[|t.markers| - 1], MarkerOf(t, step))
    ensures SpoilsNext(cfg, steps, i, step)
  {
    WhoLeft(cfg, steps, p, step);
    i := LeftAfter(cfg, steps, p, TellerOf(steps[p]));
  }

  lemma WhoLeft(cfg: T.Config, steps: seq<Step>, p: nat, step: Step)
    requires SpokeLast(cfg, steps, p) && Speaks(cfg, After(cfg, steps), step) && !step.LateMarker? && !steps[p].LateMarker?
    requires var t := After(cfg, steps); t.markers != [] && !Fits(t.markers[|t.markers| - 1], MarkerOf(t, step))
    ensures steps[p].PublishMarker? && step.PublishMarker?
    ensures var t := After(cfg, steps);
            && steps[p].k < |t.calls| && LeftOpen(t.calls[steps[p].k])
            && Number(t, steps[p].k) != Number(t, step.k)
  {
    HolderSpokeLast(cfg, steps, p);
    MisfitAfter(cfg, steps, step);
  }

  lemma HolderSpokeLast(cfg: T.Config, steps: seq<Step>, p: nat)
    requires SpokeLast(cfg, steps, p) && !steps[p].LateMarker?
    ensures var t, n := After(cfg, steps), |After(cfg, steps).markers| - 1;
            && n >= 0 && n !in t.late && |t.tellers| == n + 1
            && (t.markers[n].MessageSent? ==>
                  steps[p].PublishMarker? && t.tellers[n] == steps[p].k && Number(t, steps[p].k) == t.markers[n].turn)
  {
    LastMarkerIs(cfg, steps, p);
  }

  lemma MisfitAfter(cfg: T.Config, steps: seq<Step>, step: Step)
    requires Speaks(cfg, After(cfg, steps), step) && !step.LateMarker? && Misfits(After(cfg, steps), step)
    ensures LeftBy(After(cfg, steps), step)
  {
    EveryRunKeeps(cfg, steps);
    HolderMisfit(cfg, After(cfg, steps), step);
  }

  /** The last marker is no late one, and what `step` says does not fit it. */
  predicate Misfits(t: State, step: Step) {
    var n := |t.markers| - 1;
    n >= 0 && |t.tellers| == n + 1 && n !in t.late && !Fits(t.markers[n], MarkerOf(t, step))
  }

  /** The step opens a bracket in one of another turn that its call left open. */
  predicate LeftBy(t: State, step: Step) {
    var n := |t.markers| - 1;
    && n >= 0 && |t.tellers| == n + 1 && step.PublishMarker? && t.markers[n].MessageSent?
    && t.markers[n].turn != Number(t, step.k)
    && t.tellers[n] < |t.calls| && LeftOpen(t.calls[t.tellers[n]])
  }

  /** The holder's own marker misfits only a bracket that an earlier call left open. */
  lemma HolderMisfit(cfg: T.Config, t: State, step: Step)
    requires Inv(t) && Speaks(cfg, t, step) && !step.LateMarker? && Misfits(t, step)
    ensures LeftBy(t, step)
  {
    SpeakerSteps(cfg, t, step);
    if step.PublishMarker? {
      PublishMisfit(t, step.k);
    } else {
      CloseFits(t, step.k);
    }
  }

  lemma PublishMisfit(t: State, k: nat)
    requires Inv(t) && k < |t.calls| && t.calls[k].Holding? && t.calls[k].attempt.Sent? && Misfits(t, PublishMarker(k))
    ensures LeftBy(t, PublishMarker(k))
  {
    HolderServes(t, k);
    assert CallSound(t, k);
    MisfitAtLast(t, k);
  }

  lemma MisfitAtLast(t: State, k: nat)
    requires Gated(t) && Grammatical(t.child.log) && TellersSound(t) && LastSound(t)
    requires k == t.serving < |t.calls| && k in t.accepted && Misfits(t, PublishMarker(k))
    ensures LeftBy(t, PublishMarker(k))
  {
    var n := |t.markers| - 1;
    assert t.tellers[n] in t.accepted && t.markers[n].turn == Number(t, t.tellers[n]);
  }

  lemma CloseFits(t: State, k: nat)
    requires Inv(t) && k < |t.calls| && t.calls[k].Holding? && t.calls[k].attempt.Over?
    ensures !Misfits(t, Deliver(k, true))
  {
    HolderServes(t, k);
    OverIsOwn(t, k);
  }

  lemma ToldSince(cfg: T.Config, steps: seq<Step>, p: nat, i: nat)
    requires SpokeLast(cfg, steps, p) && p < i <= |steps|
    ensures TellerOf(steps[p]) in Before(cfg, steps, i).tellers
  {
    var before := steps[..i];
    assert steps == before + steps[i..];
    SilentBefore(cfg, before, steps[i..], p);
    assert before[..p] == steps[..p];
    assert SpokeLast(cfg, before, p);
    LastMarkerIs(cfg, before, p);
    assert After(cfg, before) == Before(cfg, steps, i);
  }

  lemma HoldsAfterMarking(cfg: T.Config, steps: seq<Step>, p: nat, k: nat)
    requires p < |steps| && steps[p] == PublishMarker(k) && Enabled(cfg, Before(cfg, steps, p), steps[p])
    ensures var t := Before(cfg, steps, p + 1); k < |t.calls| && t.calls[k].Holding?
  {
    BeforeNext(cfg, steps, p);
  }

  /** The step after `p`, the marker of call `k`, by which the call left its bracket open. */
  lemma LeftAfter(cfg: T.Config, steps: seq<Step>, p: nat, k: nat) returns (i: nat)
    requires SpokeLast(cfg, steps, p) && steps[p] == PublishMarker(k)
    requires k < |After(cfg, steps).calls| && LeftOpen(After(cfg, steps).calls[k])
    ensures p < i < |steps| && Silent(cfg, steps, i) && Enabled(cfg, Before(cfg, steps, i), steps[i])
    ensures (steps[i] == FailOtherwise(k) && k in Before(cfg, steps, i).tellers) || steps[i] == Deliver(k, false)
  {
    HoldsAfterMarking(cfg, steps, p, k);
    i := LeftSince(cfg, steps, p + 1, k);
    ToldSince(cfg, steps, p, i);
  }

  // ---- Exactly when ----------------------------------------------------------------------------------

  lemma NextFits(cfg: T.Config, steps: seq<Step>, step: Step)
    requires ScanMarkers(After(cfg, steps).markers).Some?
    ensures ScanMarkers(After(cfg, steps + [step]).markers).Some? <==> forall i: nat :: !SpoilsNext(cfg, steps, i, step)
  {
    var t := After(cfg, steps);
    OneMore(cfg, steps, step);
    if Speaks(cfg, t, step) {
      EveryRunKeeps(cfg, steps);
      EveryRunKeeps(cfg, steps + [step]);
      SaysMarker(cfg, t, step);
      ScanLonger(t.markers, MarkerOf(t, step));
      forall i: nat | SpoilsNext(cfg, steps, i, step)
        ensures t.markers != [] && !Fits(t.markers[|t.markers| - 1], MarkerOf(t, step))
      {
        ClashesDoNotFit(cfg, steps, i, step);
      }
      if t.markers != [] && !Fits(t.markers[|t.markers| - 1], MarkerOf(t, step)) {
        var i := MisfitsClash(cfg, steps, step);
      }
    } else {
      SaysNothing(cfg, t, step);
    }
  }

  /** No two steps of the run clash. */
  ghost predicate Harmony(cfg: T.Config, steps: seq<Step>) {
    forall i: nat, j: nat :: !Spoils(cfg, steps, i, j)
  }

  /** The markers of a run are well-formed brackets if and only if no two of its steps clash. */
  lemma {:induction false} BracketsIff(cfg: T.Config, steps: seq<Step>)
    ensures ScanMarkers(After(cfg, steps).markers).Some? <==> Harmony(cfg, steps)
    decreases |steps|
  {
    if |steps| > 0 {
      var n := |steps| - 1;
      var before := steps[..n];
      assert steps == before + [steps[n]];
      BracketsIff(cfg, before);
      HarmonySplits(cfg, steps);
      if ScanMarkers(After(cfg, before).markers).Some? {
        NextFits(cfg, before, steps[n]);
      } else {
        StaysBroken(cfg, before, steps[n]);
      }
    }
  }

  /** Two steps clash in a run that clash in the run but its last step, or one of them is that
      step. */
  lemma SpoilsBefore(cfg: T.Config, steps: seq<Step>)
    requires |steps| > 0
    ensures var n := |steps| - 1;
            && (forall i: nat, j: nat :: j < n ==> (Spoils(cfg, steps, i, j) <==> Spoils(cfg, steps[..n], i, j)))
            && (forall i: nat :: Spoils(cfg, steps, i, n) <==> SpoilsNext(cfg, steps[..n], i, steps[n]))
  {
    var n := |steps| - 1;
    forall i: nat, j: nat | j < n
      ensures Spoils(cfg, steps, i, j) <==> Spoils(cfg, steps[..n], i, j)
    {
      assert steps[..n][..j] == steps[..j];
    }
  }

  lemma HarmonySplits(cfg: T.Config, steps: seq<Step>)
    requires |steps| > 0
    ensures var n := |steps| - 1;
            Harmony(cfg, steps) <==> Harmony(cfg, steps[..n]) && forall i: nat :: !SpoilsNext(cfg, steps[..n], i, steps[n])
  {
    var n := |steps| - 1;
    SpoilsBefore(cfg, steps);
    if Harmony(cfg, steps) {
      forall i: nat, j: nat
        ensures !Spoils(cfg, steps[..n], i, j)
      {
        assert j < n ==> !Spoils(cfg, steps, i, j);
      }
      forall i: nat
        ensures !SpoilsNext(cfg, steps[..n], i, steps[n])
      {
        assert !Spoils(cfg, steps, i, n);
      }
    }
    if Harmony(cfg, steps[..n]) && forall i: nat :: !SpoilsNext(cfg, steps[..n], i, steps[n]) {
      forall i: nat, j: nat
        ensures !Spoils(cfg, steps, i, j)
      {
        if j < n {
          assert !Spoils(cfg, steps[..n], i, j);
        } else if j == n {
          assert !SpoilsNext(cfg, steps[..n], i, steps[n]);
        }
      }
    }
  }

  lemma StaysBroken(cfg: T.Config, steps: seq<Step>, step: Step)
    requires ScanMarkers(After(cfg, steps).markers).None?
    ensures ScanMarkers(After(cfg, steps + [step]).markers).None?
  {
    var t := After(cfg, steps);
    OneMore(cfg, steps, step);
    if Speaks(cfg, t, step) {
      EveryRunKeeps(cfg, steps);
      SaysMarker(cfg, t, step);
      ScanLonger(t.markers, MarkerOf(t, step));
    } else {
      SaysNothing(cfg, t, step);
    }
  }

  /** No step of the run leaves a bracket to nobody: no call is cut short once its marker is out,
      none finds no turn open when it closes, and no attempt that was given up publishes. */
  ghost predicate Untroubled(cfg: T.Config, steps: seq<Step>) {
    forall x :: 0 <= x < |steps| && Enabled(cfg, Before(cfg, steps, x), steps[x]) ==>
      match steps[x]
      case FailOtherwise(k) => k !in Before(cfg, steps, x).tellers
      case Deliver(_, turnOpen) => turnOpen
      case LateMarker(_) => false
      case _ => true
  }

  /** A bracket left open at the end was opened by an attempt given up before, or is the holder's,
      or its call was cut short or found no turn open to close it in; or the child is gone. */
  predicate OpenIsOwned(s: State) {
    s.markers != [] && s.markers[|s.markers| - 1].MessageSent? ==>
      s.childGone || |s.markers| - 1 in s.late || (|s.tellers| == |s.markers| && Owns(s, s.tellers[|s.markers| - 1]))
  }

  /** So the markers of an untroubled run are well-formed; and in any run a marker bears the number
      its call was accepted under, and a bracket left open at the end has its reason. */
  lemma BracketsOfEveryRun(cfg: T.Config, steps: seq<Step>)
    ensures Untroubled(cfg, steps) ==> ScanMarkers(After(cfg, steps).markers).Some?
    ensures TellersSound(After(cfg, steps)) && OpenIsOwned(After(cfg, steps))
  {
    EveryRunKeeps(cfg, steps);
    BracketsIff(cfg, steps);
    if ScanMarkers(After(cfg, steps).markers).None? {
      var i: nat, j: nat :| Spoils(cfg, steps, i, j);
      SpoiledIsTroubled(cfg, steps, i, j);
    }
  }

  lemma SpoiledIsTroubled(cfg: T.Config, steps: seq<Step>, i: nat, j: nat)
    requires Spoils(cfg, steps, i, j)
    ensures !Untroubled(cfg, steps)
  {
    assert steps[..j][..i] == steps[..i] && steps[..j][i] == steps[i];
    assert Enabled(cfg, Before(cfg, steps, i), steps[i]) && Enabled(cfg, Before(cfg, steps, j), steps[j]);
  }

  // ---- Runs that break them --------------------------------------------------------------------------

  /** The steps by which the ticket being served sends and is told of. */
  function SendsNow(k: nat): seq<Step> {
    [PassGate(k, true), Submit(k), PublishMarker(k)]
  }

  lemma SendsNowRuns(cfg: T.Config, s: State, k: nat, m: Message)
    requires k == s.serving < |s.calls| && s.calls[k] == SubagentDriver.Queued(m) && !s.childGone && k !in s.accepted
    requires T.Validate(cfg, s.child, m).None?
    ensures var t := Exec(cfg, s, SendsNow(k));
            && t.markers == s.markers + [MessageSent(T.ReplyTo(cfg, s.child, m).turnNumber, s.lastConsumed)]
            && t.child == T.AdmitValid(cfg, s.child, m) && !t.childGone && t.serving == k && t.lastConsumed == s.lastConsumed
            && |t.calls| == |s.calls| && t.strays == s.strays && t.accepted == s.accepted[k := T.ReplyTo(cfg, s.child, m)]
            && t.calls[k] == Holding(m, s.lastConsumed, None, Marked(ProgressOf(t.accepted[k], s.lastConsumed)))
            && forall j :: 0 <= j < |s.calls| && j != k ==> t.calls[j] == s.calls[j]
  {
    var steps := SendsNow(k);
    var s1 := Apply(cfg, s, steps[0]);
    var s2 := Apply(cfg, s1, steps[1]);
    var s3 := Apply(cfg, s2, steps[2]);
    Unroll(cfg, s, steps);
    Unroll(cfg, s1, steps[1..]);
    Unroll(cfg, s2, steps[2..]);
    assert Exec(cfg, s3, steps[3..]) == s3;
    assert s1.calls[k] == Holding(m, s.lastConsumed, None, Fresh);
  }

  lemma TwoCallsRun(cfg: T.Config, m: Message)
    ensures var t := Exec(cfg, Start(T.INIT), [Step.Call(m), Step.Call(m)]);
            t == Start(T.INIT).(calls := [SubagentDriver.Queued(m), SubagentDriver.Queued(m)])
  {
    var steps := [Step.Call(m), Step.Call(m)];
    var s0 := Start(T.INIT);
    var s1 := Apply(cfg, s0, steps[0]);
    var s2 := Apply(cfg, s1, steps[1]);
    Unroll(cfg, s0, steps);
    Unroll(cfg, s1, steps[1..]);
    assert Exec(cfg, s2, steps[2..]) == s2;
    assert s2.calls == [SubagentDriver.Queued(m), SubagentDriver.Queued(m)];
  }

  predicate Queues(cfg: T.Config, m: Message) {
    m.kind in cfg.handlers && cfg.handlers[m.kind].midTurn.ENQUEUE? && cfg.handlers[m.kind].accepts(m.payload)
  }

  /** The first of the two sends, is told of, and is cut short. */
  lemma FirstIsCutShort(cfg: T.Config, s: State, m: Message)
    requires Queues(cfg, m) && s == Start(T.INIT).(calls := [SubagentDriver.Queued(m), SubagentDriver.Queued(m)])
    ensures var t := Exec(cfg, s, SendsNow(0) + [FailOtherwise(0)]);
            && t.markers == [MessageSent(1, 0)] && t.child == T.AdmitValid(cfg, T.INIT, m) && !t.childGone
            && t.serving == 1 && t.lastConsumed == 0 && |t.calls| == 2 && t.calls[1] == SubagentDriver.Queued(m) && 1 !in t.accepted
  {
    SendsNowRuns(cfg, s, 0, m);
    var t := Exec(cfg, s, SendsNow(0));
    ExecAppend(cfg, s, SendsNow(0), [FailOtherwise(0)]);
    assert Exec(cfg, t, [FailOtherwise(0)]) == Exec(cfg, Apply(cfg, t, FailOtherwise(0)), []);
  }

  lemma SecondNumber(cfg: T.Config, m: Message)
    requires Queues(cfg, m)
    ensures var child := T.AdmitValid(cfg, T.INIT, m);
            T.Validate(cfg, child, m).None? && T.ReplyTo(cfg, child, m).turnNumber == 2
  {
  }

  /** Such a run: two sends to a child that queues them; the first is cancelled after its marker,
      and the second's marker opens inside the bracket it left. */
  lemma OverlapIsReachable(cfg: T.Config, m: Message) returns (steps: seq<Step>)
    requires Queues(cfg, m)
    ensures var s := Exec(cfg, Start(T.INIT), steps);
            s.markers == [MessageSent(1, 0), MessageSent(2, 0)] && ScanMarkers(s.markers).None?
  {
    var calls, first := [Step.Call(m), Step.Call(m)], SendsNow(0) + [FailOtherwise(0)];
    TwoCallsRun(cfg, m);
    var s := Exec(cfg, Start(T.INIT), calls);
    FirstIsCutShort(cfg, s, m);
    var t := Exec(cfg, s, first);
    SecondNumber(cfg, m);
    SendsNowRuns(cfg, t, 1, m);
    ExecAppend(cfg, Start(T.INIT), calls, first);
    ExecAppend(cfg, Start(T.INIT), calls + first, SendsNow(1));
    steps := calls + first + SendsNow(1);
    TwoOpen();
  }

  lemma TwoOpen()
    ensures ScanMarkers([MessageSent(1, 0), MessageSent(2, 0)]).None?
  {
    var ms := [MessageSent(1, 0), MessageSent(2, 0)];
    GrammarIsLocal(ms);
    assert !Fits(ms[0], ms[1]);
  }

  // ---- And with no attempt given up ---------------------------------------------------------------------

  /** The child steps on its own. */
  function ChildSteps(steps: seq<T.Step>): (r: seq<Step>)
    ensures |r| == |steps|
  {
    if steps == [] then [] else [ChildStep(steps[0])] + ChildSteps(steps[1..])
  }

  lemma {:induction false} ChildRuns(cfg: T.Config, s: State, steps: seq<T.Step>)
    requires !s.childGone && !s.child.abandoned && !T.Exec(cfg, s.child, steps).abandoned
    ensures Exec(cfg, s, ChildSteps(steps)) == s.(child := T.Exec(cfg, s.child, steps))
    decreases |steps|
  {
    if |steps| > 0 {
      var t := s.(child := T.Apply(cfg, s.child, steps[0]));
      NoAbandonYet(cfg, s.child, steps);
      assert Apply(cfg, s, ChildStep(steps[0])) == t;
      ChildRuns(cfg, t, steps[1..]);
      assert ChildSteps(steps)[1..] == ChildSteps(steps[1..]);
    }
  }

  /** A run that ends with nobody torn down tore nobody down. */
  lemma NoAbandonYet(cfg: T.Config, s: T.State, steps: seq<T.Step>)
    requires |steps| > 0 && !T.Exec(cfg, s, steps).abandoned
    ensures !T.Apply(cfg, s, steps[0]).abandoned
    ensures steps[0].Abandon? ==> T.Apply(cfg, s, steps[0]) == s
  {
    var t := T.Apply(cfg, s, steps[0]);
    if t.abandoned {
      AbandonedInEveryRun(cfg, t, steps[1..]);
    }
  }

  lemma {:induction false} AbandonedInEveryRun(cfg: T.Config, s: T.State, steps: seq<T.Step>)
    requires s.abandoned
    ensures T.Exec(cfg, s, steps).abandoned
    decreases |steps|
  {
    if |steps| > 0 {
      L.AbandonedForGood(cfg, s, steps[0]);
      AbandonedInEveryRun(cfg, T.Apply(cfg, s, steps[0]), steps[1..]);
    }
  }

  /** Reading on, with the end of the turn on the stream, comes to an end. */
  lemma {:induction false} ReadsToTheEnd(cfg: T.Config, s: State, k: nat, e: nat) returns (steps: seq<Step>, a: Attempt)
    requires k < |s.calls| && s.calls[k].Holding? && s.calls[k].attempt.Consuming?
    requires s.calls[k].attempt.p.offset <= e && Ends(s.child.log, e)
    requires s.child.log[e].turnId == Some(s.calls[k].attempt.p.turnId)
    ensures a.Over? && Exec(cfg, s, steps) == With(s, k, s.calls[k].(attempt := a))
    decreases e - s.calls[k].attempt.p.offset
  {
    var c := s.calls[k];
    var next := ReadOne(s.child.log, c.attempt);
    var t := With(s, k, c.(attempt := next));
    assert Apply(cfg, s, ReadItem(k)) == t;
    if next.Over? {
      steps, a := [ReadItem(k)], next;
      Unroll(cfg, s, steps);
      assert Exec(cfg, t, steps[1..]) == t;
    } else {
      var more;
      more, a := ReadsToTheEnd(cfg, t, k, e);
      steps := [ReadItem(k)] + more;
      Unroll(cfg, s, steps);
      assert steps[1..] == more;
      assert With(t, k, t.calls[k].(attempt := a)) == With(s, k, c.(attempt := a));
    }
  }
  function FirstSteps(m: Message): seq<Step> {
    [ChildStep(T.StartLoop), Step.Call(m), Step.Call(m)]
  }

  lemma FirstStepsRun(cfg: T.Config, m: Message)
    ensures var q := SubagentDriver.Queued(m);
            After(cfg, FirstSteps(m)) == Start(T.EnterLoop(cfg, T.INIT)).(calls := [q, q])
  {
    var steps := FirstSteps(m);
    var s0 := Start(T.INIT);
    var s1 := Apply(cfg, s0, steps[0]);
    var s2 := Apply(cfg, s1, steps[1]);
    var s3 := Apply(cfg, s2, steps[2]);
    Unroll(cfg, s0, steps);
    Unroll(cfg, s1, steps[1..]);
    Unroll(cfg, s2, steps[2..]);
    assert Exec(cfg, s3, steps[3..]) == s3;
    assert s3.calls == [SubagentDriver.Queued(m), SubagentDriver.Queued(m)];
  }

  /** The first call's marker is out, its attempt may read, and the child can work. */
  predicate FirstTold(s: State, m: Message) {
    && |s.calls| == 2 && s.serving == 0 && !s.childGone && s.strays == map[] && s.late == {} && s.accepted.Keys == {0}
    && s.calls[0] == Holding(m, 0, None, Marked(ProgressOf(s.accepted[0], 0))) && s.calls[1] == SubagentDriver.Queued(m)
    && s.markers == [MessageSent(s.accepted[0].turnNumber, 0)]
    && H.Looping(s.child) && s.child.lost == {}
  }

  lemma FirstIsTold(cfg: T.Config, m: Message) returns (steps: seq<Step>)
    requires Queues(cfg, m)
    ensures FirstTold(After(cfg, steps), m)
  {
    FirstStepsRun(cfg, m);
    var s := After(cfg, FirstSteps(m));
    SendsNowRuns(cfg, s, 0, m);
    steps := FirstSteps(m) + SendsNow(0);
    ExecAppend(cfg, Start(T.INIT), FirstSteps(m), SendsNow(0));
    SendSaysNotLate(cfg, s, 0);
  }

  lemma {:induction false} SendSaysNotLate(cfg: T.Config, s: State, k: nat)
    ensures Exec(cfg, s, SendsNow(k)).late == s.late
  {
    var steps := SendsNow(k);
    var s1 := Apply(cfg, s, steps[0]);
    var s2 := Apply(cfg, s1, steps[1]);
    var s3 := Apply(cfg, s2, steps[2]);
    Unroll(cfg, s, steps);
    Unroll(cfg, s1, steps[1..]);
    Unroll(cfg, s2, steps[2..]);
    assert Exec(cfg, s3, steps[3..]) == s3;
    SaysNothing(cfg, s, steps[0]);
    SaysNothing(cfg, s1, steps[1]);
  }

  /** The first call is over, and its bracket is open. */
  predicate FirstUnclosed(s: State, m: Message) {
    && |s.calls| == 2 && s.serving == 1 && !s.childGone && s.strays == map[] && s.late == {} && s.accepted.Keys == {0}
    && s.calls[0] == Done(Unclosed) && s.calls[1] == SubagentDriver.Queued(m)
    && s.markers == [MessageSent(s.accepted[0].turnNumber, 0)]
    && H.Looping(s.child)
  }

  /** The child finishes the turn. */
  lemma ChildFinishes(cfg: T.Config, s: State, m: Message) returns (steps: seq<Step>, e: nat)
    requires Inv(s) && FirstTold(s, m)
    ensures var t := Exec(cfg, s, steps);
            && t == s.(child := t.child) && H.Looping(t.child) && EndsTurnOf(t, e)
  {
    var r := s.accepted[0];
    var work, x;
    work, x, e := H.AcceptedCanFinish(cfg, s.child, r.acceptedOffset, r.messageId);
    H.LogGrows(cfg, s.child, work);
    ChildRuns(cfg, s, work);
    steps := ChildSteps(work);
  }

  /** The attempt reads to the end of the turn. */
  lemma FirstReads(cfg: T.Config, s: State, e: nat) returns (steps: seq<Step>, a: Attempt)
    requires EndsTurnOf(s, e) && |s.calls| > 0 && s.calls[0].Holding? && s.calls[0].attempt == Marked(ProgressOf(s.accepted[0], 0))
    ensures a.Over? && Exec(cfg, s, steps) == With(s, 0, s.calls[0].(attempt := a))
  {
    var read := With(s, 0, s.calls[0].(attempt := Consuming(ProgressOf(s.accepted[0], 0), 0, None)));
    assert Apply(cfg, s, BeginReading(0)) == read;
    var items;
    items, a := ReadsToTheEnd(cfg, read, 0, e);
    steps := [BeginReading(0)] + items;
    Unroll(cfg, s, steps);
    assert steps[1..] == items;
    assert With(read, 0, read.calls[0].(attempt := a)) == With(s, 0, s.calls[0].(attempt := a));
  }

  lemma FirstFindsNoTurn(cfg: T.Config, s: State, m: Message)
    requires |s.calls| == 2 && s.calls[0].Holding? && s.calls[0].attempt.Over? && s.calls[1] == SubagentDriver.Queued(m)
    requires s.serving == 0 && !s.childGone && s.strays == map[] && s.late == {} && s.accepted.Keys == {0}
    requires s.markers == [MessageSent(s.accepted[0].turnNumber, 0)] && H.Looping(s.child)
    ensures var t := Exec(cfg, s, [Deliver(0, false)]);
            FirstUnclosed(t, m) && t.accepted == s.accepted && t.child == s.child
  {
    Unroll(cfg, s, [Deliver(0, false)]);
    var t := Apply(cfg, s, Deliver(0, false));
    assert Exec(cfg, t, []) == t;
  }

  /** The child finishes the turn, the attempt reads it, and no turn is open to close it in. */
  lemma FirstIsUnclosed(cfg: T.Config, s: State, m: Message) returns (steps: seq<Step>)
    requires Inv(s) && FirstTold(s, m)
    ensures var t := Exec(cfg, s, steps);
            FirstUnclosed(t, m) && exists e: nat :: EndsTurnOf(t, e)
  {
    var work, e := ChildFinishes(cfg, s, m);
    var t := Exec(cfg, s, work);
    var read, a := FirstReads(cfg, t, e);
    var over := Exec(cfg, t, read);
    FirstFindsNoTurn(cfg, over, m);
    ExecAppend(cfg, s, work, read);
    ExecAppend(cfg, s, work + read, [Deliver(0, false)]);
    steps := work + read + [Deliver(0, false)];
    assert EndsTurnOf(Exec(cfg, over, [Deliver(0, false)]), e);
  }

  predicate EndsTurnOf(s: State, e: nat) {
    0 in s.accepted && Ends(s.child.log, e) && s.child.log[e].turnId == Some(s.accepted[0].turnId)
  }

  /** The next call's turn is a later one. */
  lemma SecondOpensLater(cfg: T.Config, s: State, m: Message, e: nat)
    requires Queues(cfg, m) && Inv(s) && FirstUnclosed(s, m) && EndsTurnOf(s, e)
    ensures T.Validate(cfg, s.child, m).None?
    ensures s.accepted[0].turnNumber < T.ReplyTo(cfg, s.child, m).turnNumber
  {
    EndOfOurTurn(s.child.log, s.accepted[0], e);
    AdmitNumber(cfg, s.child, m, s.accepted[0].turnNumber);
  }

  /** Brackets overlap with no attempt given up at all: the first call's turn of the parent has
      ended when its reply is there, publishing the close marker raises, and the second call,
      made in a later turn of the parent, opens inside. */
  lemma UnclosedIsReachable(cfg: T.Config, m: Message) returns (steps: seq<Step>)
    requires Queues(cfg, m)
    ensures var s := After(cfg, steps);
            s.strays == map[] && s.late == {} && |s.calls| == 2 && s.calls[0] == Done(Unclosed) && ScanMarkers(s.markers).None?
  {
    var first := FirstIsTold(cfg, m);
    EveryRunKeeps(cfg, first);
    var more := FirstIsUnclosed(cfg, After(cfg, first), m);
    ExecAppend(cfg, Start(T.INIT), first, more);
    EveryRunKeeps(cfg, first + more);
    var t := After(cfg, first + more);
    var e: nat :| EndsTurnOf(t, e);
    SecondOpensLater(cfg, t, m, e);
    SendsNowRuns(cfg, t, 1, m);
    SendSaysNotLate(cfg, t, 1);
    ExecAppend(cfg, Start(T.INIT), first + more, SendsNow(1));
    steps := first + more + SendsNow(1);
    ScanLonger(t.markers, MessageSent(T.ReplyTo(cfg, t.child, m).turnNumber, t.lastConsumed));
  }

  // ---- What well-formed brackets tell ---------------------------------------------------------------------

  lemma {:induction false} NumbersRise(ms: seq<Marker>, i: nat, j: nat)
    requires AllFit(ms) && i <= j < |ms|
    ensures ms[i].turn <= ms[j].turn
    decreases j - i
  {
    if i < j {
      assert Fits(ms[i], ms[i + 1]);
      NumbersRise(ms, i + 1, j);
    }
  }

  lemma {:induction false} CloseBetween(ms: seq<Marker>, i: nat, j: nat) returns (x: nat)
    requires AllFit(ms) && i < j < |ms| && ms[i].MessageSent? && ms[j].MessageSent? && ms[i].turn != ms[j].turn
    ensures i < x < j && ms[x].ReplyReceived? && ms[x].turn == ms[i].turn
    decreases j - i
  {
    assert Fits(ms[i], ms[i + 1]);
    if ms[i + 1].ReplyReceived? {
      x := i + 1;
    } else {
      x := CloseBetween(ms, i + 1, j);
    }
  }

  /** In a well-formed sequence of markers: a bracket opened after a close has a number that is
      not lower, and strictly higher after an ok close; two different opens have a close of
      the first between them. */
  lemma BracketNumbers(ms: seq<Marker>, i: nat, j: nat)
    requires ScanMarkers(ms).Some? && i < j < |ms| && ms[j].MessageSent?
    ensures ms[i].turn <= ms[j].turn
    ensures ms[i].ReplyReceived? && ms[i].ok ==> ms[i].turn < ms[j].turn
    ensures ms[i].MessageSent? && ms[i].turn != ms[j].turn ==>
              exists x :: i < x < j && ms[x].ReplyReceived? && ms[x].turn == ms[i].turn
  {
    GrammarIsLocal(ms);
    NumbersRise(ms, i, j);
    assert Fits(ms[i], ms[i + 1]);
    NumbersRise(ms, i + 1, j);
    if ms[i].MessageSent? && ms[i].turn != ms[j].turn {
      var x := CloseBetween(ms, i, j);
    }
  }
}
