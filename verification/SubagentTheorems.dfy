/** What every run of a parent and its child keeps: one admission per send, exact replies, adjacent
    windows; and exactly when the markers on the parent's stream are well-formed brackets. */
module SubagentTheorems {
  import opened Protocol
  import opened TurnGrammar
  import T = TurnMachine
  import S = TurnSafety
  import L = TurnLog
  import H = TurnTheorems
  import opened TurnConsumer
  import opened SubagentDriver

  // ---- Facts about the child's log, stable while it grows --------------------------------

  ghost predicate ReplySound(log: seq<Envelope>, r: Reply) {
    && Accepts(log, r.acceptedOffset, r.messageId)
    && log[r.acceptedOffset].turnId == Some(r.turnId)
    && log[r.acceptedOffset].turnNumber == r.turnNumber
  }

  ghost predicate HasTerminal(log: seq<Envelope>, i: nat, j: nat, m: Uuid, e: Event) {
    j <= |log| && exists x: nat :: i <= x < j && Terminates(log, x, m) && log[x].event == e
  }

  /** The message's terminal is an error, told in its own words if it has any. */
  ghost predicate HasError(log: seq<Envelope>, m: Uuid, message: string) {
    exists x: nat :: x < |log| && FailsAs(log, x, m, message)
  }

  predicate FailsAs(log: seq<Envelope>, x: nat, m: Uuid, message: string) {
    && Terminates(log, x, m) && log[x].event.MessageHandlerError?
    && (if log[x].event.message != "" then message == log[x].event.message else message == "subagent turn failed")
  }

  ghost predicate NoTerminal(log: seq<Envelope>, i: nat, j: nat, m: Uuid) {
    j <= |log| && forall x: nat :: i <= x < j ==> !Terminates(log, x, m)
  }

  ghost predicate ReadSoFar(log: seq<Envelope>, i: nat, j: nat, m: Uuid, reply: Option<string>) {
    if reply.Some? then HasTerminal(log, i, j, m, MessageHandlerEnd(reply.value)) else NoTerminal(log, i, j, m)
  }

  /** The turn numbered `n` has ended. */
  ghost predicate TurnIsOver(log: seq<Envelope>, n: nat)
    requires Grammatical(log)
  {
    var g := At(log, |log|);
    n < g.turns || (n == g.turns && g.open.None?)
  }

  lemma Grows(log: seq<Envelope>, log': seq<Envelope>)
    requires Grammatical(log') && log <= log'
    ensures Grammatical(log) && Later(At(log, |log|), At(log', |log'|))
    ensures forall n: nat :: TurnIsOver(log, n) ==> TurnIsOver(log', n)
  {
    assert log'[..|log|] == log;
    AtOfPrefix(log', |log|, |log|);
    ReadingGrows(log', |log|, |log'|);
  }

  /** The end of our turn's bracket bears our turn's number, and the turn is over from then on. */
  lemma EndOfOurTurn(log: seq<Envelope>, r: Reply, i: nat)
    requires Grammatical(log) && ReplySound(log, r) && Ends(log, i) && log[i].turnId == Some(r.turnId)
    ensures TurnIsOver(log, r.turnNumber)
  {
    var g := At(log, |log|);
    AtSteps(log, i);
    AtIsSound(log, i);
    AtIsSound(log, |log|);
    ReadingGrows(log, i + 1, |log|);
    SlotOfReply(log, r);
    assert g.slots[At(log, i).turns - 1] == r.turnId;
    assert r.turnNumber == At(log, i).turns;
  }

  lemma SlotOfReply(log: seq<Envelope>, r: Reply)
    requires Grammatical(log) && ReplySound(log, r)
    ensures 0 < r.turnNumber <= |At(log, |log|).slots| && At(log, |log|).slots[r.turnNumber - 1] == r.turnId
  {
    var a := r.acceptedOffset;
    AtSteps(log, a);
    AtIsSound(log, a + 1);
    ReadingGrows(log, a + 1, |log|);
    assert SoundRecord(At(log, a + 1), At(log, a + 1).messages[r.messageId]);
  }

  lemma TerminalOfOurTurn(log: seq<Envelope>, r: Reply, i: nat)
    requires Grammatical(log) && ReplySound(log, r) && Terminates(log, i, r.messageId)
    ensures log[i].turnId == Some(r.turnId) && r.acceptedOffset < i && r.turnNumber <= At(log, |log|).turns
  {
    var a, b := MessageLife(log, i, r.messageId);
    assert a == r.acceptedOffset;
    AtSteps(log, i);
    AtIsSound(log, i);
    assert SoundRecord(At(log, i), At(log, i).messages[r.messageId]);
    ReadingGrows(log, i, |log|);
  }

  // ---- Each call -------------------------------------------------------------------------

  predicate Own(p: Progress, r: Reply) {
    p.turnId == r.turnId && p.turnNumber == r.turnNumber && p.messageId == r.messageId
  }

  ghost predicate AttemptSound(log: seq<Envelope>, a: Attempt, r: Reply, from: nat) {
    match a
    case Fresh => true
    case Sent(p) => p == ProgressOf(r, from)
    case Marked(p) => p == ProgressOf(r, from)
    case Consuming(p, start, reply) =>
      Own(p, r) && from <= start <= p.offset <= |log| && ReadSoFar(log, start, p.offset, r.messageId, reply)
    case Over(p, start, c) =>
      Own(p, r) && from <= start <= p.offset <= |log| && OverSound(log, start, p.offset, c, r)
  }

  ghost predicate OverSound(log: seq<Envelope>, start: nat, end: nat, c: Consumed, r: Reply)
    requires end <= |log|
  {
    match c
    case Stopped(reply, _) =>
      start < end && Ends(log, end - 1) && log[end - 1].turnId == Some(r.turnId)
      && ReadSoFar(log, start, end, r.messageId, reply)
    case TurnError(message, _) => start < end && FailsAs(log, end - 1, r.messageId, message)
    case StreamEnded(reply, _) => ReadSoFar(log, start, end, r.messageId, reply)
  }

  /** What a finished turn told the caller is what the child published for this very message. */
  ghost predicate ResultSound(log: seq<Envelope>, gone: bool, t: TurnResult, r: Reply) {
    match t
    case Answered(output) => HasTerminal(log, 0, |log|, r.messageId, MessageHandlerEnd(output))
    case SubagentTurnError(message) => HasError(log, r.messageId, message)
    case SubagentNoReply => gone || !NoTerminal(log, 0, |log|, r.messageId)
  }

  ghost predicate CallSound(s: State, k: nat)
    requires k < |s.calls|
  {
    match s.calls[k]
    case Queued(_) => k !in s.accepted
    case GaveUp => k !in s.accepted
    case Cancelled => k !in s.accepted
    case CutShort => true
    case Done(r) => r.Turn? ==> k in s.accepted && ResultSound(s.child.log, s.childGone, r.result, s.accepted[k])
    case Holding(_, from, memo, a) =>
      && from == s.lastConsumed && from <= |s.child.log|
      && (a.Fresh? ==> memo.None?)
      && (!a.Fresh? || memo.Some? ==>
            && k in s.accepted
            && AttemptSound(s.child.log, a, s.accepted[k], from)
            && (memo.Some? ==> Own(memo.value, s.accepted[k]) && from <= memo.value.offset <= |s.child.log|))
      && (k in s.accepted ==> from <= s.accepted[k].acceptedOffset)
      && (a.Over? && a.consumed.StreamEnded? ==> s.childGone)
  }

  /** Our marker is on the parent's stream. */
  predicate Announced(c: Call)
    requires c.Holding?
  {
    c.memo.Some? || c.attempt.Marked? || c.attempt.Consuming? || c.attempt.Over?
  }

  /** Every marker bears the turn number its call was accepted under. */
  ghost predicate TellersSound(s: State) {
    && |s.tellers| == |s.markers|
    && (forall i :: 0 <= i < |s.markers| ==>
          s.tellers[i] in s.accepted && s.markers[i].turn == s.accepted[s.tellers[i]].turnNumber)
    && (s.markers != [] ==> s.markers[0].MessageSent?)
    && (forall i <- s.late :: i < |s.markers|)
  }

  /** Holds no gate any more, and closed nothing that it may have opened. */
  predicate LeftOpen(c: Call) {
    c.CutShort? || (c.Done? && c.result.Unclosed?)
  }

  /** The last marker: an open bracket was opened by an attempt given up before, or is the
      holder's, or its call left it open, or the child is gone; a closed one is not ahead of
      the child, nor of the message accepted for the holder. */
  ghost predicate LastSound(s: State)
    requires Gated(s) && Grammatical(s.child.log) && TellersSound(s)
  {
    s.markers != [] ==>
      var i := |s.markers| - 1;
      match s.markers[i]
      case MessageSent(_, _) => i in s.late || Owns(s, s.tellers[i]) || (s.childGone && s.serving !in s.accepted)
      case ReplyReceived(n, ok) =>
        && (n <= At(s.child.log, |s.child.log|).turns || s.childGone)
        && (ok ==> TurnIsOver(s.child.log, n) || s.childGone)
        && (s.serving in s.accepted ==>
              n <= s.accepted[s.serving].turnNumber && (ok ==> n < s.accepted[s.serving].turnNumber))
  }

  predicate Owns(s: State, k: nat) {
    k < |s.calls| && ((k == s.serving && s.calls[k].Holding?) || LeftOpen(s.calls[k]))
  }

  /** Once the holder's marker is out, the last word is its own or that of an attempt given up. */
  ghost predicate HolderSpoke(s: State)
    requires Gated(s) && TellersSound(s)
  {
    s.serving < |s.calls| && s.calls[s.serving].Holding? ==>
      && (Announced(s.calls[s.serving]) ==> s.serving in s.tellers)
      && (s.serving in s.tellers ==>
            && s.markers[|s.markers| - 1].MessageSent?
            && (|s.markers| - 1 in s.late || s.tellers[|s.markers| - 1] == s.serving))
  }

  ghost predicate BracketSound(s: State)
    requires Gated(s) && Grammatical(s.child.log)
  {
    TellersSound(s) && LastSound(s) && HolderSpoke(s)
  }

  /** A stray of ticket `k` knows the message and the offset its call had. */
  ghost predicate StraysSound(s: State) {
    forall k <- s.strays :: k <= s.serving && k < |s.calls| && s.strays[k].from <= |s.child.log|
                            && (k in s.accepted ==> s.strays[k].from <= s.accepted[k].acceptedOffset)
                            && (k == s.serving && s.calls[k].Holding? ==> s.strays[k].from == s.calls[k].from)
                            && !s.calls[k].Queued? && !s.calls[k].GaveUp? && !s.calls[k].Cancelled?
  }

  /** Successful turns consume adjacent windows of the child's stream: each begins where the one
      before it ended, and the next request starts at the end of the last. */
  ghost predicate Adjacent(windows: seq<(nat, nat)>, end: nat) {
    && (windows == [] ==> end == 0)
    && (windows != [] ==> windows[0].0 == 0 && windows[|windows| - 1].1 == end)
    && (forall i :: 0 <= i < |windows| ==> windows[i].0 <= windows[i].1)
    && (forall i :: 0 < i < |windows| ==> windows[i - 1].1 == windows[i].0)
  }

  ghost predicate ChildSound(s: State) {
    S.Inv(s.child) && L.LogInv(s.child) && !s.child.abandoned
  }

  ghost predicate AcceptedSound(s: State) {
    && (forall k <- s.accepted :: k <= s.serving && k < |s.calls| && ReplySound(s.child.log, s.accepted[k]))
    && (forall j <- s.accepted, k <- s.accepted :: s.accepted[j].messageId == s.accepted[k].messageId ==> j == k)
  }

  ghost predicate Inv(s: State) {
    && Gated(s)
    && ChildSound(s)
    && AcceptedSound(s)
    && StraysSound(s)
    && (forall k :: 0 <= k < |s.calls| ==> CallSound(s, k))
    && BracketSound(s)
    && Adjacent(s.windows, s.lastConsumed) && s.lastConsumed <= |s.child.log|
  }

  // ---- The child moves ---------------------------------------------------------------------

  lemma ReadGrows(log: seq<Envelope>, log': seq<Envelope>, i: nat, j: nat, m: Uuid, reply: Option<string>)
    requires log <= log' && ReadSoFar(log, i, j, m, reply)
    ensures ReadSoFar(log', i, j, m, reply)
  {
    if reply.Some? {
      var x: nat :| i <= x < j && Terminates(log, x, m) && log[x].event == MessageHandlerEnd(reply.value);
      assert Terminates(log', x, m) && log'[x].event == MessageHandlerEnd(reply.value);
    } else {
      forall x: nat | i <= x < j
        ensures !Terminates(log', x, m)
      {
        assert !Terminates(log, x, m);
      }
    }
  }

  lemma AttemptGrows(log: seq<Envelope>, log': seq<Envelope>, a: Attempt, r: Reply, from: nat)
    requires log <= log' && AttemptSound(log, a, r, from)
    ensures AttemptSound(log', a, r, from)
  {
    match a
    case Consuming(p, start, reply) => ReadGrows(log, log', start, p.offset, r.messageId, reply);
    case Over(p, start, Stopped(reply, o)) => ReadGrows(log, log', start, p.offset, r.messageId, reply);
    case Over(p, start, StreamEnded(reply, o)) => ReadGrows(log, log', start, p.offset, r.messageId, reply);
    case _ =>
  }

  lemma ResultGrows(log: seq<Envelope>, log': seq<Envelope>, gone: bool, t: TurnResult, r: Reply)
    requires log <= log' && ResultSound(log, gone, t, r)
    ensures ResultSound(log', gone, t, r)
  {
    match t
    case SubagentNoReply =>
      if !gone {
        var x: nat :| x < |log| && Terminates(log, x, r.messageId);
        assert Terminates(log', x, r.messageId);
      }
    case Answered(output) =>
      var x: nat :| x < |log| && Terminates(log, x, r.messageId) && log[x].event == MessageHandlerEnd(output);
      assert Terminates(log', x, r.messageId);
    case SubagentTurnError(e) =>
      var x: nat :| x < |log| && FailsAs(log, x, r.messageId, e);
      assert FailsAs(log', x, r.messageId, e);
  }

  lemma CallGrows(s: State, s': State, k: nat)
    requires k < |s.calls| && CallSound(s, k) && s.child.log <= s'.child.log && s' == s.(child := s'.child)
    ensures CallSound(s', k)
  {
    match s.calls[k]
    case Done(Turn(t)) => ResultGrows(s.child.log, s'.child.log, s.childGone, t, s.accepted[k]);
    case Holding(_, from, memo, a) =>
      if !a.Fresh? || memo.Some? {
        AttemptGrows(s.child.log, s'.child.log, a, s.accepted[k], from);
      }
    case _ =>
  }

  lemma ChildMoves(s: State, child: T.State)
    requires Inv(s) && s.child.log <= child.log
    requires S.Inv(child) && L.LogInv(child) && !child.abandoned
    ensures Inv(s.(child := child))
  {
    var s' := s.(child := child);
    Grows(s.child.log, child.log);
    SendsGrow(s, s');
    CallsGrow(s, s');
    GateOther(s, s');
    BracketGrows(s, s');
  }

  lemma SendsGrow(s: State, s': State)
    requires AcceptedSound(s) && StraysSound(s) && s.child.log <= s'.child.log && s' == s.(child := s'.child)
    ensures AcceptedSound(s') && StraysSound(s')
  {
  }

  lemma CallsGrow(s: State, s': State)
    requires (forall k :: 0 <= k < |s.calls| ==> CallSound(s, k)) && s.child.log <= s'.child.log && s' == s.(child := s'.child)
    ensures forall k :: 0 <= k < |s'.calls| ==> CallSound(s', k)
  {
    forall k | 0 <= k < |s'.calls|
      ensures CallSound(s', k)
    {
      CallGrows(s, s', k);
    }
  }

  lemma BracketGrows(s: State, s': State)
    requires Gated(s) && Gated(s') && Grammatical(s.child.log) && Grammatical(s'.child.log) && BracketSound(s)
    requires s' == s.(child := s'.child) && Later(At(s.child.log, |s.child.log|), At(s'.child.log, |s'.child.log|))
    requires forall n: nat :: TurnIsOver(s.child.log, n) ==> TurnIsOver(s'.child.log, n)
    ensures BracketSound(s')
  {
  }

  lemma ChildStepKeeps(cfg: T.Config, s: State, t: T.Step)
    requires Inv(s) && !t.Abandon?
    ensures Inv(s.(child := T.Apply(cfg, s.child, t)))
  {
    S.StepKeeps(cfg, s.child, t);
    L.StepLogged(cfg, s.child, t);
    H.LogGrowsByStep(cfg, s.child, t);
    NeverAbandons(cfg, s.child, t);
    ChildMoves(s, T.Apply(cfg, s.child, t));
  }

  lemma NeverAbandons(cfg: T.Config, s: T.State, t: T.Step)
    requires !t.Abandon? && !s.abandoned
    ensures !T.Apply(cfg, s, t).abandoned
  {
    if T.Enabled(s, t) {
      match t
      case AdmitMessage(m) => L.HistoryOfAdmit(cfg, s, m);
      case ResumeLoop => L.HistoryOfResume(cfg, s);
      case Finish(m, o) => L.HistoryOfFinish(s, m, o);
      case _ =>
    }
  }

  // ---- The holder moves ----------------------------------------------------------------------

  /** Other calls do not look at call `k`. */
  lemma OthersSame(s: State, t: State, k: nat)
    requires (forall j :: 0 <= j < |s.calls| ==> CallSound(s, j)) && |t.calls| == |s.calls| && k < |s.calls|
    requires t.child == s.child && t.childGone == s.childGone && t.accepted - {k} == s.accepted - {k}
    requires forall j :: 0 <= j < |s.calls| && j != k ==> t.calls[j] == s.calls[j] && !s.calls[j].Holding?
    ensures forall j :: 0 <= j < |t.calls| && j != k ==> CallSound(t, j)
  {
    forall j | 0 <= j < |t.calls| && j != k
      ensures CallSound(t, j)
    {
      assert CallSound(s, j);
      assert j in t.accepted <==> j in t.accepted - {k};
      assert j in s.accepted <==> j in s.accepted - {k};
      assert j in s.accepted ==> (t.accepted - {k})[j] == (s.accepted - {k})[j];
    }
  }

  lemma OnlyOneHolder(s: State, k: nat)
    requires Gated(s) && k == s.serving < |s.calls|
    ensures forall j :: 0 <= j < |s.calls| && j != k ==> !s.calls[j].Holding?
  {
    forall j | 0 <= j < |s.calls| && j != k
      ensures !s.calls[j].Holding?
    {
      assert j < s.serving ==> IsDone(s.calls[j]);
      assert j > s.serving ==> IsWaiting(s.calls[j]);
    }
  }

  lemma HolderMoves(s: State, k: nat, c: Call)
    requires Inv(s) && k == s.serving < |s.calls| && s.calls[k].Holding? && c.Holding? && c.from == s.calls[k].from
    requires CallSound(With(s, k, c), k) && (Announced(c) ==> Announced(s.calls[k]))
    ensures Inv(With(s, k, c))
  {
    GateWith(s, k, c);
    OnlyOneHolder(s, k);
    OthersSame(s, With(s, k, c), k);
    HolderBracket(s, With(s, k, c));
  }

  /** The brackets look at the holder only for whether it holds and has spoken. */
  lemma HolderBracket(s: State, t: State)
    requires Gated(s) && Gated(t) && Grammatical(s.child.log) && BracketSound(s) && |t.calls| == |s.calls|
    requires t == s.(calls := t.calls) && s.serving < |s.calls| && s.calls[s.serving].Holding? && t.calls[s.serving].Holding?
    requires forall j :: 0 <= j < |s.calls| && j != s.serving ==> t.calls[j] == s.calls[j]
    requires Announced(t.calls[s.serving]) ==> Announced(s.calls[s.serving])
    ensures BracketSound(t)
  {
  }

  lemma ReadOneSound(log: seq<Envelope>, a: Attempt, r: Reply, from: nat)
    requires Grammatical(log) && ReplySound(log, r) && AttemptSound(log, a, r, from)
    requires a.Consuming? && a.p.offset < |log|
    ensures AttemptSound(log, ReadOne(log, a), r, from)
  {
    var i := a.p.offset;
    if Terminates(log, i, r.messageId) {
      TerminalOfOurTurn(log, r, i);
    }
    if a.reply.Some? {
      var x: nat :| a.start <= x < i && Terminates(log, x, r.messageId)
                    && log[x].event == MessageHandlerEnd(a.reply.value);
      if Terminates(log, i, r.messageId) {
        EventsOfOneMessage(log, x, i, r.messageId);
        assert false;
      }
    }
    assert NoTerminal(log, a.start, i, r.messageId) && !Terminates(log, i, r.messageId)
           ==> NoTerminal(log, a.start, i + 1, r.messageId);
  }

  lemma ReadItemKeeps(s: State, k: nat)
    requires Inv(s) && k < |s.calls| && s.calls[k].Holding? && s.calls[k].attempt.Consuming?
    requires s.calls[k].attempt.p.offset < |s.child.log|
    ensures Inv(With(s, k, s.calls[k].(attempt := ReadOne(s.child.log, s.calls[k].attempt))))
  {
    HolderServes(s, k);
    assert CallSound(s, k);
    var c := s.calls[k];
    ReadOneSound(s.child.log, c.attempt, s.accepted[k], c.from);
    HolderMoves(s, k, c.(attempt := ReadOne(s.child.log, c.attempt)));
  }

  lemma CrashKeeps(s: State, k: nat)
    requires Inv(s) && k < |s.calls| && s.calls[k].Holding?
    ensures Inv(With(s, k, Restarted(s.calls[k])))
  {
    HolderServes(s, k);
    assert CallSound(s, k);
    HolderMoves(s, k, Restarted(s.calls[k]));
  }

  /** An attempt is given up: from now on its call's markers may come at any time. */
  lemma AstrayKeeps(s: State, k: nat)
    requires Inv(s) && k < |s.calls| && s.calls[k].Holding?
    ensures Inv(Astray(s, k))
  {
    HolderServes(s, k);
    AstrayBracket(s, k);
    AstrayCalls(s, k);
    assert CallSound(s, k);
  }

  lemma AstrayCalls(s: State, k: nat)
    requires (forall j :: 0 <= j < |s.calls| ==> CallSound(s, j)) && k < |s.calls| && s.calls[k].Holding?
    ensures var t := Astray(s, k); forall j :: 0 <= j < |t.calls| ==> CallSound(t, j)
  {
    var t := Astray(s, k);
    forall j | 0 <= j < |t.calls|
      ensures CallSound(t, j)
    {
      assert CallSound(s, j);
    }
  }

  lemma AstrayBracket(s: State, k: nat)
    requires Gated(s) && Grammatical(s.child.log) && BracketSound(s) && k < |s.calls| && s.calls[k].Holding?
    ensures Gated(Astray(s, k)) && BracketSound(Astray(s, k))
  {
    GateOther(s, Astray(s, k));
  }

  lemma StreamEndsKeeps(s: State, k: nat)
    requires Inv(s) && s.childGone && k < |s.calls| && s.calls[k].Holding? && s.calls[k].attempt.Consuming?
    ensures Inv(With(s, k, s.calls[k].(attempt := EndOfStream(s.calls[k].attempt))))
  {
    HolderServes(s, k);
    assert CallSound(s, k);
    HolderMoves(s, k, s.calls[k].(attempt := EndOfStream(s.calls[k].attempt)));
  }

  lemma RecordKeeps(cfg: T.Config, s: State, k: nat, o: nat)
    requires Inv(s) && Enabled(cfg, s, RecordMemo(k, o))
    ensures Inv(With(s, k, s.calls[k].(memo := Some(s.calls[k].attempt.p.(offset := o)))))
  {
    HolderServes(s, k);
    assert CallSound(s, k);
    HolderMoves(s, k, s.calls[k].(memo := Some(s.calls[k].attempt.p.(offset := o))));
  }

  lemma BeginReadingKeeps(cfg: T.Config, s: State, k: nat)
    requires Inv(s) && Enabled(cfg, s, BeginReading(k))
    ensures Inv(With(s, k, s.calls[k].(attempt := Consuming(s.calls[k].attempt.p, s.calls[k].attempt.p.offset, None))))
  {
    HolderServes(s, k);
    assert CallSound(s, k);
    HolderMoves(s, k, s.calls[k].(attempt := Consuming(s.calls[k].attempt.p, s.calls[k].attempt.p.offset, None)));
  }

  // ---- The marker, the send, the close ----------------------------------------------------------

  lemma MarkerKeeps(s: State, k: nat)
    requires Inv(s) && k < |s.calls| && s.calls[k].Holding? && s.calls[k].attempt.Sent?
    ensures Inv(MarkStep(s, k))
  {
    HolderServes(s, k);
    assert CallSound(s, k);
    var c := s.calls[k].(attempt := Marked(s.calls[k].attempt.p));
    MarkerCalls(s, k, c);
    MarkerBracket(s, k);
  }

  lemma MarkerCalls(s: State, k: nat, c: Call)
    requires Inv(s) && k == s.serving < |s.calls| && s.calls[k].Holding? && s.calls[k].attempt.Sent?
    requires c == s.calls[k].(attempt := Marked(s.calls[k].attempt.p))
    ensures Gated(MarkStep(s, k))
    ensures var t := MarkStep(s, k); forall j :: 0 <= j < |t.calls| ==> CallSound(t, j)
  {
    assert CallSound(s, k);
    GateMark(s, k);
    OnlyOneHolder(s, k);
    OthersSame(s, MarkStep(s, k), k);
  }

  /** One more marker, of an accepted call; the facts about the last one are left to the caller. */
  lemma OneMoreMarker(s: State, t: State, k: nat, m: Marker)
    requires TellersSound(s) && t.markers == s.markers + [m] && t.tellers == s.tellers + [k]
    requires t.accepted == s.accepted && (t.late == s.late || t.late == s.late + {|s.markers|})
    requires k in s.accepted && m.turn == s.accepted[k].turnNumber && (s.markers == [] ==> m.MessageSent?)
    ensures TellersSound(t)
  {
    assert forall i :: 0 <= i < |s.markers| ==> t.markers[i] == s.markers[i] && t.tellers[i] == s.tellers[i];
  }

  /** The holder's marker opens the bracket of the accepted turn, or repeats its own number. */
  lemma MarkerBracket(s: State, k: nat)
    requires Gated(s) && Grammatical(s.child.log) && BracketSound(s) && k == s.serving < |s.calls| && k in s.accepted
    requires s.calls[k].Holding? && s.calls[k].attempt.Sent?
    requires s.calls[k].attempt.p.turnNumber == s.accepted[k].turnNumber
    requires Gated(MarkStep(s, k))
    ensures BracketSound(MarkStep(s, k))
  {
    OneMoreMarker(s, MarkStep(s, k), k, MessageSent(s.accepted[k].turnNumber, s.calls[k].from));
  }

  lemma LateMarkerKeeps(s: State, k: nat)
    requires Inv(s) && k in s.strays && k in s.accepted
    ensures Inv(TellLate(s, k))
  {
    var t := TellLate(s, k);
    GateOther(s, t);
    SameCalls(s, t);
    LateBracket(s, k);
  }

  lemma LateBracket(s: State, k: nat)
    requires Gated(s) && Grammatical(s.child.log) && BracketSound(s) && k in s.strays && k in s.accepted
    requires Gated(TellLate(s, k))
    ensures BracketSound(TellLate(s, k))
  {
    OneMoreMarker(s, TellLate(s, k), k, MessageSent(s.accepted[k].turnNumber, s.strays[k].from));
  }

  /** A release that publishes nothing. */
  lemma ReleaseKeeps(s: State, k: nat, c: Call)
    requires Inv(s) && k == s.serving < |s.calls|
    requires c == CutShort || (c.Done? && !c.result.Turn?)
    requires s.childGone || k !in s.accepted || c.CutShort?
    requires c.CutShort? || s.calls[k].Queued? || s.calls[k].Holding?
    ensures Inv(ReleaseAs(s, k, c))
  {
    var t := ReleaseAs(s, k, c);
    GateRelease(s, k, c);
    OnlyOneHolder(s, k);
    OthersSame(s, t, k);
    NextNotAccepted(s, k);
    ReleaseBracket(s, k, c);
    ReleaseStrays(s, k, c);
  }

  lemma ReleaseStrays(s: State, k: nat, c: Call)
    requires StraysSound(s) && AcceptedSound(s) && k == s.serving < |s.calls| && IsDone(c)
    ensures StraysSound(ReleaseAs(s, k, c)) && AcceptedSound(ReleaseAs(s, k, c))
  {
  }

  lemma NextNotAccepted(s: State, k: nat)
    requires Gated(s) && AcceptedSound(s) && k == s.serving < |s.calls|
    ensures k + 1 !in s.accepted
  {
  }

  lemma ReleaseBracket(s: State, k: nat, c: Call)
    requires Gated(s) && Grammatical(s.child.log) && BracketSound(s) && k == s.serving < |s.calls| && IsDone(c)
    requires s.childGone || k !in s.accepted || c.CutShort?
    requires k + 1 !in s.accepted && Gated(ReleaseAs(s, k, c))
    ensures BracketSound(ReleaseAs(s, k, c))
  {
    if k + 1 < |s.calls| {
      assert IsWaiting(s.calls[k + 1]);
    }
  }

  /** The number of a newly accepted message against the turns the child has started. */
  lemma AdmitNumber(cfg: T.Config, child: T.State, m: Message, last: nat)
    requires S.Inv(child) && L.LogInv(child) && !child.abandoned && T.Validate(cfg, child, m).None?
    requires last <= At(child.log, |child.log|).turns
    ensures last <= T.ReplyTo(cfg, child, m).turnNumber
    ensures TurnIsOver(child.log, last) ==> last < T.ReplyTo(cfg, child, m).turnNumber
  {
    assert child.log[..|child.log|] == child.log;
  }

  lemma AdmitReply(cfg: T.Config, child: T.State, m: Message)
    requires S.Inv(child) && L.LogInv(child) && !child.abandoned && T.Validate(cfg, child, m).None?
    ensures var child' := T.AdmitValid(cfg, child, m);
            && S.Inv(child') && L.LogInv(child') && !child'.abandoned && child.log <= child'.log
            && ReplySound(child'.log, T.ReplyTo(cfg, child, m))
            && T.ReplyTo(cfg, child, m).acceptedOffset == |child.log|
  {
    AdmitKeepsChild(cfg, child, m);
    AdmitAppends(cfg, child, m);
  }

  lemma AdmitKeepsChild(cfg: T.Config, child: T.State, m: Message)
    requires S.Inv(child) && L.LogInv(child) && !child.abandoned && T.Validate(cfg, child, m).None?
    ensures S.Inv(T.AdmitValid(cfg, child, m)) && L.LogInv(T.AdmitValid(cfg, child, m))
  {
    S.AdmitKeeps(cfg, child, m);
    L.StepLogged(cfg, child, T.AdmitMessage(m));
    assert T.Apply(cfg, child, T.AdmitMessage(m)) == T.AdmitValid(cfg, child, m);
  }

  lemma AdmitAppends(cfg: T.Config, child: T.State, m: Message)
    requires T.Validate(cfg, child, m).None?
    requires !child.abandoned
    ensures var child' := T.AdmitValid(cfg, child, m);
            && !child'.abandoned && child.log <= child'.log
            && ReplySound(child'.log, T.ReplyTo(cfg, child, m))
            && T.ReplyTo(cfg, child, m).acceptedOffset == |child.log|
  {
  }

  lemma KnownMessage(log: seq<Envelope>, r: Reply)
    requires Grammatical(log) && ReplySound(log, r)
    ensures r.messageId in Scan(log).value.messages
  {
    AtSteps(log, r.acceptedOffset);
    ReadingGrows(log, r.acceptedOffset + 1, |log|);
    assert log[..|log|] == log;
  }

  /** A freshly minted message id is no earlier acceptance's. */
  lemma AdmitFresh(child: T.State, r: Reply)
    requires L.LogInv(child) && !child.abandoned && ReplySound(child.log, r)
    ensures r.messageId < child.nextUuid
  {
    KnownMessage(child.log, r);
    assert L.Agrees(child, Scan(child.log).value);
  }

  lemma MintsNext(cfg: T.Config, child: T.State, m: Message)
    requires m.kind in cfg.handlers
    ensures T.ReplyTo(cfg, child, m).messageId == child.nextUuid
  {
  }

  lemma AcceptedGrows(s: State, child: T.State, k: nat, r: Reply)
    requires AcceptedSound(s) && k <= s.serving && k < |s.calls| && k !in s.accepted
    requires s.child.log <= child.log && ReplySound(child.log, r)
    requires forall j <- s.accepted :: s.accepted[j].messageId != r.messageId
    ensures AcceptedSound(s.(child := child, accepted := s.accepted[k := r]))
  {
    var t := s.(child := child, accepted := s.accepted[k := r]);
    forall j | j in t.accepted
      ensures ReplySound(t.child.log, t.accepted[j])
    {
      assert j in s.accepted ==> ReplySound(s.child.log, s.accepted[j]);
    }
  }

  /** The number of the new acceptance against the last bracket closed. */
  lemma SendNumber(cfg: T.Config, s: State, m: Message)
    requires Inv(s) && !s.childGone && T.Validate(cfg, s.child, m).None?
    requires s.markers != [] && s.markers[|s.markers| - 1].ReplyReceived?
    ensures var b := s.markers[|s.markers| - 1];
            var n := T.ReplyTo(cfg, s.child, m).turnNumber;
            b.turn <= n && (b.ok ==> b.turn < n)
  {
    AdmitNumber(cfg, s.child, m, s.markers[|s.markers| - 1].turn);
  }

  lemma AcceptedCalls(s: State, k: nat, r: Reply)
    requires (forall j :: 0 <= j < |s.calls| ==> CallSound(s, j)) && k < |s.calls| && k !in s.accepted && !IsWaiting(s.calls[k])
    requires s.calls[k].Holding? ==> s.calls[k].from <= r.acceptedOffset
    ensures var t := s.(accepted := s.accepted[k := r]); forall j :: 0 <= j < |t.calls| ==> CallSound(t, j)
  {
    var t := s.(accepted := s.accepted[k := r]);
    forall j | 0 <= j < |t.calls|
      ensures CallSound(t, j)
    {
      assert CallSound(s, j);
    }
  }

  lemma AcceptedBracket(s: State, k: nat, r: Reply)
    requires Gated(s) && Grammatical(s.child.log) && BracketSound(s) && !s.childGone && k !in s.accepted
    requires Makes(s, r.turnNumber)
    ensures Gated(s.(accepted := s.accepted[k := r])) && BracketSound(s.(accepted := s.accepted[k := r]))
  {
    var t := s.(accepted := s.accepted[k := r]);
    GateOther(s, t);
    assert forall i :: 0 <= i < |s.markers| ==> s.tellers[i] != k;
  }

  lemma AcceptChild(cfg: T.Config, s: State, m: Message)
    requires Inv(s) && T.Validate(cfg, s.child, m).None?
    ensures Inv(s.(child := T.AdmitValid(cfg, s.child, m)))
  {
    AdmitReply(cfg, s.child, m);
    ChildMoves(s, T.AdmitValid(cfg, s.child, m));
  }

  lemma NoEarlierMessage(cfg: T.Config, s: State, m: Message)
    requires AcceptedSound(s) && ChildSound(s) && m.kind in cfg.handlers
    ensures forall j <- s.accepted :: s.accepted[j].messageId != T.ReplyTo(cfg, s.child, m).messageId
  {
    MintsNext(cfg, s.child, m);
    forall j | j in s.accepted
      ensures s.accepted[j].messageId != T.ReplyTo(cfg, s.child, m).messageId
    {
      AdmitFresh(s.child, s.accepted[j]);
    }
  }

  lemma AcceptReply(cfg: T.Config, s: State, k: nat, m: Message)
    requires AcceptedSound(s) && ChildSound(s) && k !in s.accepted && k <= s.serving && k < |s.calls|
    requires T.Validate(cfg, s.child, m).None?
    ensures AcceptedSound(AcceptStep(cfg, s, k, m))
  {
    AdmitReply(cfg, s.child, m);
    NoEarlierMessage(cfg, s, m);
    AcceptedGrows(s, T.AdmitValid(cfg, s.child, m), k, T.ReplyTo(cfg, s.child, m));
  }

  /** The last marker does not stand in the way of an acceptance numbered `n`. */
  predicate Makes(s: State, n: nat) {
    s.markers != [] && s.markers[|s.markers| - 1].ReplyReceived? ==>
      var b := s.markers[|s.markers| - 1]; b.turn <= n && (b.ok ==> b.turn < n)
  }

  lemma RoomForNext(cfg: T.Config, s: State, m: Message)
    requires Inv(s) && !s.childGone && T.Validate(cfg, s.child, m).None?
    ensures Makes(s, T.ReplyTo(cfg, s.child, m).turnNumber)
  {
    if s.markers != [] && s.markers[|s.markers| - 1].ReplyReceived? {
      SendNumber(cfg, s, m);
    }
  }

  /** The child accepts the message of a ticket that is being served, or was. */
  lemma AcceptKeeps(cfg: T.Config, s: State, k: nat, m: Message)
    requires Inv(s) && !s.childGone && k !in s.accepted && k <= s.serving && k < |s.calls| && !IsWaiting(s.calls[k])
    requires T.Validate(cfg, s.child, m).None?
    ensures Inv(AcceptStep(cfg, s, k, m))
  {
    AcceptChild(cfg, s, m);
    AcceptReply(cfg, s, k, m);
    AcceptAfterFrom(cfg, s, k, m);
    RoomForNext(cfg, s, m);
    AcceptedKeeps(s.(child := T.AdmitValid(cfg, s.child, m)), k, T.ReplyTo(cfg, s.child, m));
  }

  lemma AcceptAfterFrom(cfg: T.Config, s: State, k: nat, m: Message)
    requires Inv(s) && k < |s.calls| && T.Validate(cfg, s.child, m).None?
    ensures s.calls[k].Holding? ==> s.calls[k].from <= T.ReplyTo(cfg, s.child, m).acceptedOffset
    ensures k in s.strays ==> s.strays[k].from <= T.ReplyTo(cfg, s.child, m).acceptedOffset
  {
    AdmitReply(cfg, s.child, m);
    assert CallSound(s, k);
  }

  lemma AcceptedKeeps(s: State, k: nat, r: Reply)
    requires Inv(s) && !s.childGone && k !in s.accepted && k < |s.calls| && !IsWaiting(s.calls[k])
    requires AcceptedSound(s.(accepted := s.accepted[k := r]))
    requires s.calls[k].Holding? ==> s.calls[k].from <= r.acceptedOffset
    requires k in s.strays ==> s.strays[k].from <= r.acceptedOffset
    requires Makes(s, r.turnNumber)
    ensures Inv(s.(accepted := s.accepted[k := r]))
  {
    AcceptedCalls(s, k, r);
    AcceptedBracket(s, k, r);
  }

  lemma SubmitKeeps(cfg: T.Config, s: State, k: nat)
    requires Inv(s) && k < |s.calls| && s.calls[k].Holding? && s.calls[k].attempt.Fresh?
    ensures Inv(SubmitStep(cfg, s, k))
  {
    HolderServes(s, k);
    var c := s.calls[k];
    if s.childGone {
      ReleaseKeeps(s, k, Done(ChildEnded));
    } else if k in s.accepted {
      AnswerKeeps(s, k);
    } else if T.Validate(cfg, s.child, c.message).Some? {
      ReleaseKeeps(s, k, Done(SendRejected(T.Validate(cfg, s.child, c.message).value)));
    } else {
      AcceptKeeps(cfg, s, k, c.message);
      AnswerKeeps(AcceptStep(cfg, s, k, c.message), k);
    }
  }

  lemma AnswerKeeps(s: State, k: nat)
    requires Inv(s) && k < |s.calls| && s.calls[k].Holding? && s.calls[k].attempt.Fresh? && k in s.accepted
    ensures Inv(With(s, k, SentWith(s.calls[k], s.accepted[k])))
  {
    HolderServes(s, k);
    assert CallSound(s, k);
    HolderMoves(s, k, SentWith(s.calls[k], s.accepted[k]));
  }

  lemma LateSubmitKeeps(cfg: T.Config, s: State, k: nat)
    requires Inv(s) && Enabled(cfg, s, LateSubmit(k))
    ensures Inv(AcceptStep(cfg, s, k, s.strays[k].message))
  {
    AcceptKeeps(cfg, s, k, s.strays[k].message);
  }

  lemma FailKeeps(s: State, k: nat)
    requires Inv(s) && k < |s.calls| && s.calls[k].Holding?
    ensures Inv(FailStep(s, k))
  {
    HolderServes(s, k);
    AstrayKeeps(s, k);
    ReleaseKeeps(Astray(s, k), k, CutShort);
  }

  lemma TimeOutKeeps(s: State, k: nat)
    requires Inv(s) && k < |s.calls| && s.calls[k].Holding?
    ensures Inv(With(Astray(s, k), k, Restarted(s.calls[k])))
  {
    AstrayKeeps(s, k);
    CrashKeeps(Astray(s, k), k);
  }

  /** What leaves the markers, the acceptances and the child alone. */
  lemma SameBrackets(s: State, t: State)
    requires Gated(s) && Gated(t) && Grammatical(s.child.log) && BracketSound(s)
    requires t.markers == s.markers && t.tellers == s.tellers && t.late == s.late && t.accepted == s.accepted
    requires t.child == s.child && (s.childGone ==> t.childGone) && t.serving == s.serving
    requires s.serving < |s.calls| && s.calls[s.serving].Holding? ==>
               t.serving < |t.calls| && t.calls[t.serving] == s.calls[s.serving]
    requires t.serving < |t.calls| && t.calls[t.serving].Holding? ==>
               || (s.serving < |s.calls| && s.calls[s.serving] == t.calls[t.serving])
               || (!Announced(t.calls[t.serving]) && t.serving !in t.tellers)
    requires forall k :: 0 <= k < |s.calls| && LeftOpen(s.calls[k]) ==> k < |t.calls| && t.calls[k] == s.calls[k]
    ensures BracketSound(t)
  {
  }

  lemma SameCalls(s: State, t: State)
    requires forall j :: 0 <= j < |s.calls| ==> CallSound(s, j)
    requires t.child == s.child && (s.childGone ==> t.childGone) && t.accepted == s.accepted && t.lastConsumed == s.lastConsumed
    requires |s.calls| <= |t.calls| && forall j :: 0 <= j < |s.calls| ==> t.calls[j] == s.calls[j]
    ensures forall j :: 0 <= j < |s.calls| ==> CallSound(t, j)
  {
    forall j | 0 <= j < |s.calls|
      ensures CallSound(t, j)
    {
      assert CallSound(s, j);
    }
  }

  /** A waiter goes on, without having sent anything. */
  lemma WaiterMoves(s: State, k: nat, c: Call)
    requires Inv(s) && k < |s.calls| && s.calls[k].Queued? && Gated(With(s, k, c))
    requires c.GaveUp? || c.Cancelled? || (k == s.serving && c == Holding(s.calls[k].message, s.lastConsumed, None, Fresh))
    ensures Inv(With(s, k, c))
  {
    WaiterCalls(s, k, c);
    WaiterHasNotTold(s, k);
    SameBrackets(s, With(s, k, c));
  }

  lemma WaiterCalls(s: State, k: nat, c: Call)
    requires (forall j :: 0 <= j < |s.calls| ==> CallSound(s, j)) && k < |s.calls| && s.calls[k].Queued?
    requires s.lastConsumed <= |s.child.log|
    requires c.GaveUp? || c.Cancelled? || c == Holding(s.calls[k].message, s.lastConsumed, None, Fresh)
    ensures var t := With(s, k, c); forall j :: 0 <= j < |t.calls| ==> CallSound(t, j)
  {
    var t := With(s, k, c);
    assert CallSound(s, k);
    forall j | 0 <= j < |t.calls|
      ensures CallSound(t, j)
    {
      assert CallSound(s, j);
    }
  }

  lemma WaiterHasNotTold(s: State, k: nat)
    requires (forall j :: 0 <= j < |s.calls| ==> CallSound(s, j)) && TellersSound(s) && k < |s.calls| && s.calls[k].Queued?
    ensures k !in s.accepted && k !in s.tellers
  {
    assert CallSound(s, k);
    forall i | 0 <= i < |s.tellers|
      ensures s.tellers[i] != k
    {
      assert s.tellers[i] in s.accepted;
    }
  }

  lemma CancelKeeps(s: State, k: nat)
    requires Inv(s) && k < |s.calls| && s.calls[k].Queued?
    ensures Inv(With(s, k, Cancelled))
  {
    WaiterIsAhead(s, k);
    GateWith(s, k, Cancelled);
    WaiterMoves(s, k, Cancelled);
  }

  /** A finished reading has our message's own result. When it answers, the turn has ended or the
      child is gone; when it raises, or the turn ended, our turn has been started. */
  lemma OverGives(s: State, k: nat)
    requires Inv(s) && k < |s.calls| && s.calls[k].Holding? && s.calls[k].attempt.Over?
    ensures k in s.accepted
    ensures var log, r, a := s.child.log, s.accepted[k], s.calls[k].attempt;
            && ResultSound(log, s.childGone, ResultOf(a.consumed), r)
            && (r.turnNumber <= At(log, |log|).turns || s.childGone)
            && (ResultOf(a.consumed).Answered? ==> TurnIsOver(log, r.turnNumber) || s.childGone)
  {
    assert CallSound(s, k);
    OverResult(s.child.log, s.calls[k].attempt, s.accepted[k], s.calls[k].from, s.childGone);
  }

  lemma OverResult(log: seq<Envelope>, a: Attempt, r: Reply, from: nat, gone: bool)
    requires Grammatical(log) && ReplySound(log, r) && a.Over? && AttemptSound(log, a, r, from)
    requires a.consumed.StreamEnded? ==> gone
    ensures ResultSound(log, gone, ResultOf(a.consumed), r)
    ensures r.turnNumber <= At(log, |log|).turns || gone
    ensures ResultOf(a.consumed).Answered? ==> TurnIsOver(log, r.turnNumber) || gone
  {
    match a.consumed
    case Stopped(reply, _) =>
      var i := a.p.offset - 1;
      EndOfOurTurn(log, r, i);
      if reply.None? {
        var t := TerminalsPrecedeTurnEnd(log, i, r.acceptedOffset, r.messageId);
      }
    case TurnError(_, _) => TerminalOfOurTurn(log, r, a.p.offset - 1);
    case StreamEnded(_, _) =>
  }

  lemma DeliverCalls(s: State, k: nat, turnOpen: bool)
    requires Inv(s) && k == s.serving < |s.calls| && s.calls[k].Holding? && s.calls[k].attempt.Over?
    ensures var t := DeliverStep(s, k, turnOpen); Gated(t) && forall j :: 0 <= j < |t.calls| ==> CallSound(t, j)
  {
    GateDeliver(s, k, turnOpen);
    DeliverShape(s, k, turnOpen);
    OnlyOneHolder(s, k);
    OthersSame(s, DeliverStep(s, k, turnOpen), k);
    DeliveredCall(s, k, turnOpen);
  }

  lemma DeliverShape(s: State, k: nat, turnOpen: bool)
    requires k < |s.calls| && s.calls[k].Holding? && s.calls[k].attempt.Over?
    ensures var t := DeliverStep(s, k, turnOpen);
            && t.child == s.child && t.childGone == s.childGone && t.accepted == s.accepted && |t.calls| == |s.calls|
            && forall j :: 0 <= j < |s.calls| && j != k ==> t.calls[j] == s.calls[j]
  {
  }

  lemma DeliveredCall(s: State, k: nat, turnOpen: bool)
    requires Inv(s) && k < |s.calls| && s.calls[k].Holding? && s.calls[k].attempt.Over?
    ensures CallSound(DeliverStep(s, k, turnOpen), k)
  {
    OverGives(s, k);
  }

  lemma DeliverBracket(s: State, k: nat)
    requires Inv(s) && k == s.serving < |s.calls| && s.calls[k].Holding? && s.calls[k].attempt.Over?
    requires Gated(DeliverStep(s, k, true))
    ensures BracketSound(DeliverStep(s, k, true))
  {
    DeliverMarker(s, k);
    DeliverLast(s, k);
  }

  lemma DeliverMarker(s: State, k: nat)
    requires Inv(s) && k == s.serving < |s.calls| && s.calls[k].Holding? && s.calls[k].attempt.Over?
    ensures TellersSound(DeliverStep(s, k, true))
  {
    OverIsOwn(s, k);
    OneMoreMarker(s, DeliverStep(s, k, true), k, CloseOf(s.calls[k].attempt));
  }

  lemma DeliverLast(s: State, k: nat)
    requires Inv(s) && k == s.serving < |s.calls| && s.calls[k].Holding? && s.calls[k].attempt.Over?
    requires Gated(DeliverStep(s, k, true)) && TellersSound(DeliverStep(s, k, true))
    ensures LastSound(DeliverStep(s, k, true)) && HolderSpoke(DeliverStep(s, k, true))
  {
    OverGives(s, k);
    NextNotAccepted(s, k);
    OverIsOwn(s, k);
    if k + 1 < |s.calls| {
      assert IsWaiting(s.calls[k + 1]);
    }
  }

  /** The close marker that was not published leaves its bracket to nobody. */
  lemma UnclosedBracket(s: State, k: nat)
    requires Gated(s) && Grammatical(s.child.log) && BracketSound(s) && AcceptedSound(s)
    requires k == s.serving < |s.calls| && s.calls[k].Holding? && s.calls[k].attempt.Over?
    requires Gated(DeliverStep(s, k, false))
    ensures BracketSound(DeliverStep(s, k, false))
  {
    NextNotAccepted(s, k);
    if k + 1 < |s.calls| {
      assert IsWaiting(s.calls[k + 1]);
    }
  }

  lemma OverIsOwn(s: State, k: nat)
    requires Inv(s) && k < |s.calls| && s.calls[k].Holding? && s.calls[k].attempt.Over?
    ensures k in s.accepted && s.calls[k].attempt.p.turnNumber == s.accepted[k].turnNumber
  {
    assert CallSound(s, k);
  }

  lemma DeliverWindow(s: State, k: nat, turnOpen: bool)
    requires Inv(s) && k == s.serving < |s.calls| && s.calls[k].Holding? && s.calls[k].attempt.Over?
    ensures var t := DeliverStep(s, k, turnOpen); Adjacent(t.windows, t.lastConsumed) && t.lastConsumed <= |t.child.log|
  {
    assert CallSound(s, k);
    if ResultOf(s.calls[k].attempt.consumed).Answered? {
      OneMoreWindow(s.windows, s.lastConsumed, s.calls[k].attempt.p.offset);
    }
  }

  lemma OneMoreWindow(windows: seq<(nat, nat)>, end: nat, next: nat)
    requires Adjacent(windows, end) && end <= next
    ensures Adjacent(windows + [(end, next)], next)
  {
    var w := windows + [(end, next)];
    assert forall i :: 0 <= i < |windows| ==> w[i] == windows[i];
  }

  lemma DeliverStrays(s: State, k: nat, turnOpen: bool)
    requires StraysSound(s) && AcceptedSound(s) && k == s.serving < |s.calls| && s.calls[k].Holding? && s.calls[k].attempt.Over?
    ensures StraysSound(DeliverStep(s, k, turnOpen)) && AcceptedSound(DeliverStep(s, k, turnOpen))
  {
  }

  lemma DeliverKeeps(s: State, k: nat, turnOpen: bool)
    requires Inv(s) && k < |s.calls| && s.calls[k].Holding? && s.calls[k].attempt.Over?
    ensures Inv(DeliverStep(s, k, turnOpen))
  {
    HolderServes(s, k);
    DeliverCalls(s, k, turnOpen);
    DeliverShape(s, k, turnOpen);
    DeliverTells(s, k, turnOpen);
    DeliverWindow(s, k, turnOpen);
    DeliverStrays(s, k, turnOpen);
  }

  lemma DeliverTells(s: State, k: nat, turnOpen: bool)
    requires Inv(s) && k == s.serving < |s.calls| && s.calls[k].Holding? && s.calls[k].attempt.Over?
    requires Gated(DeliverStep(s, k, turnOpen))
    ensures BracketSound(DeliverStep(s, k, turnOpen))
  {
    if turnOpen {
      DeliverBracket(s, k);
    } else {
      UnclosedBracket(s, k);
    }
  }

  lemma PassGateKeeps(cfg: T.Config, s: State, k: nat, turnOpen: bool)
    requires Inv(s) && Enabled(cfg, s, PassGate(k, turnOpen))
    ensures Inv(Apply(cfg, s, PassGate(k, turnOpen)))
  {
    assert CallSound(s, k);
    WaiterIsAhead(s, k);
    if s.serving == k && !turnOpen {
      ReleaseKeeps(s, k, Done(NoActiveTurn));
    } else {
      var c := if s.serving != k then GaveUp else Holding(s.calls[k].message, s.lastConsumed, None, Fresh);
      GateWith(s, k, c);
      WaiterMoves(s, k, c);
    }
  }

  lemma CallKeeps(s: State, m: Message)
    requires Inv(s)
    ensures Inv(s.(calls := s.calls + [SubagentDriver.Queued(m)]))
  {
    var t := s.(calls := s.calls + [SubagentDriver.Queued(m)]);
    GateCall(s, m);
    SameCalls(s, t);
    NewCallBrackets(s, t);
    NewCallSound(s, t);
  }

  lemma NewCallBrackets(s: State, t: State)
    requires Gated(s) && Gated(t) && Grammatical(s.child.log) && BracketSound(s) && AcceptedSound(s)
    requires |t.calls| == |s.calls| + 1 && t.calls[|s.calls|].Queued? && t == s.(calls := t.calls) && t.calls[..|s.calls|] == s.calls
    ensures BracketSound(t)
  {
    assert forall j :: 0 <= j < |s.calls| ==> t.calls[j] == t.calls[..|s.calls|][j];
    SameBrackets(s, t);
  }

  lemma NewCallSound(s: State, t: State)
    requires AcceptedSound(s) && StraysSound(s) && |t.calls| == |s.calls| + 1 && t.calls[|s.calls|].Queued?
    requires t == s.(calls := t.calls) && t.calls[..|s.calls|] == s.calls
    ensures AcceptedSound(t) && StraysSound(t) && CallSound(t, |s.calls|)
  {
    assert forall j :: 0 <= j < |s.calls| ==> t.calls[j] == t.calls[..|s.calls|][j];
    assert |s.calls| !in s.accepted;
  }

  lemma FlagKeeps(s: State, t: State)
    requires Inv(s) && t == s.(closed := t.closed, childGone := t.childGone)
    requires (s.closed ==> t.closed) && (s.childGone ==> t.childGone)
    ensures Inv(t)
  {
    GateOther(s, t);
    SameCalls(s, t);
    SameBrackets(s, t);
  }

  /** The steps that an attempt makes, or dies by. */
  lemma AttemptKeeps(cfg: T.Config, s: State, step: Step)
    requires Inv(s) && Enabled(cfg, s, step)
    requires IsAttempt(step)
    ensures Inv(Apply(cfg, s, step))
  {
    match step
    case PublishMarker(k) => MarkerKeeps(s, k);
    case TimeOut(k) => TimeOutKeeps(s, k);
    case BeginReading(k) => BeginReadingKeeps(cfg, s, k);
    case RecordMemo(k, o) => RecordKeeps(cfg, s, k, o);
    case ReadItem(k) => ReadItemKeeps(s, k);
    case StreamEnds(k) => StreamEndsKeeps(s, k);
    case Crash(k) => CrashKeeps(s, k);
  }

  lemma StepKeeps(cfg: T.Config, s: State, step: Step)
    requires Inv(s)
    ensures Inv(Apply(cfg, s, step))
  {
    if !Enabled(cfg, s, step) {
    } else if IsAttempt(step) {
      AttemptKeeps(cfg, s, step);
    } else {
      OtherKeeps(cfg, s, step);
    }
  }

  lemma OtherKeeps(cfg: T.Config, s: State, step: Step)
    requires Inv(s) && Enabled(cfg, s, step) && !IsAttempt(step)
    ensures Inv(Apply(cfg, s, step))
  {
    match step
    case Submit(k) => SubmitKeeps(cfg, s, k);
    case Deliver(k, turnOpen) => DeliverKeeps(s, k, turnOpen);
    case FailOtherwise(k) => FailKeeps(s, k);
    case _ => OutsideKeeps(cfg, s, step);
  }

  /** The steps of the parent, of the child, of waiters and of attempts given up. */
  lemma OutsideKeeps(cfg: T.Config, s: State, step: Step)
    requires Inv(s) && Enabled(cfg, s, step)
    requires step.Call? || step.CloseParent? || step.ChildStep? || step.ChildEnds? || step.PassGate? || step.CancelWaiter?
             || step.LateSubmit? || step.LateMarker?
    ensures Inv(Apply(cfg, s, step))
  {
    match step
    case Call(m) => CallKeeps(s, m);
    case ChildStep(t) => ChildStepKeeps(cfg, s, t);
    case PassGate(k, turnOpen) => PassGateKeeps(cfg, s, k, turnOpen);
    case CancelWaiter(k) => CancelKeeps(s, k);
    case LateSubmit(k) => LateSubmitKeeps(cfg, s, k);
    case LateMarker(k) => LateMarkerKeeps(s, k);
    case _ => FlagKeeps(s, Apply(cfg, s, step));
  }

  lemma {:induction false} RunKeeps(cfg: T.Config, s: State, steps: seq<Step>)
    requires Inv(s)
    ensures Inv(Exec(cfg, s, steps))
    decreases |steps|
  {
    if |steps| > 0 {
      StepKeeps(cfg, s, steps[0]);
      RunKeeps(cfg, Apply(cfg, s, steps[0]), steps[1..]);
    }
  }

  // ---- Over whole runs ---------------------------------------------------------------------------

  lemma EveryRunKeeps(cfg: T.Config, steps: seq<Step>)
    ensures Inv(Exec(cfg, Start(T.INIT), steps))
  {
    var s := Start(T.INIT);
    assert T.INIT.log[..0] == [];
    RunKeeps(cfg, s, steps);
  }

  /** The tickets served are exactly 0.._serving-1, one at a time and in call order, even when
      closing makes queued waiters give up and calls are cancelled while they wait or hold. */
  lemma TicketsServedInOrder(cfg: T.Config, steps: seq<Step>, k: nat)
    requires k < |Exec(cfg, Start(T.INIT), steps).calls|
    ensures var s := Exec(cfg, Start(T.INIT), steps);
            && (IsDone(s.calls[k]) <==> k < s.serving)
            && (s.calls[k].Holding? ==> k == s.serving)
            && (s.calls[k].GaveUp? ==> s.closed && s.serving <= k)
  {
    EveryRunKeeps(cfg, steps);
    var s := Exec(cfg, Start(T.INIT), steps);
    assert k < s.serving ==> IsDone(s.calls[k]);
    assert k > s.serving ==> IsWaiting(s.calls[k]);
  }

  /** A finished call returned the output (or raised the error) its own message produced, never
      a sibling's: it is the message's only terminal. */
  lemma RepliesAreOurs(cfg: T.Config, steps: seq<Step>, k: nat) returns (x: nat)
    requires k < |Exec(cfg, Start(T.INIT), steps).calls|
    requires var c := Exec(cfg, Start(T.INIT), steps).calls[k];
             c.Done? && c.result.Turn? && !c.result.result.SubagentNoReply?
    ensures var s := Exec(cfg, Start(T.INIT), steps);
            && k in s.accepted
            && var m := s.accepted[k].messageId;
            && Terminates(s.child.log, x, m)
            && (match s.calls[k].result.result
                case Answered(output) => s.child.log[x].event == MessageHandlerEnd(output)
                case SubagentTurnError(message) =>
                  && s.child.log[x].event.MessageHandlerError?
                  && (s.child.log[x].event.message != "" ==> message == s.child.log[x].event.message)
                  && (s.child.log[x].event.message == "" ==> message == "subagent turn failed"))
            && forall y: nat :: Terminates(s.child.log, y, m) ==> y == x
  {
    EveryRunKeeps(cfg, steps);
    var s := Exec(cfg, Start(T.INIT), steps);
    assert CallSound(s, k);
    var log, m := s.child.log, s.accepted[k].messageId;
    match s.calls[k].result.result
    case Answered(output) =>
      x :| x < |log| && Terminates(log, x, m) && log[x].event == MessageHandlerEnd(output);
      var a, b := MessageLife(log, x, m);
    case SubagentTurnError(message) =>
      x :| x < |log| && FailsAs(log, x, m, message);
      var a, b := MessageLife(log, x, m);
  }

  /** A reading gives no reply if and only if its attempt began past our own terminal, or the
      child's stream ended before our terminal was read. */
  lemma NoReplyIff(s: State, k: nat)
    requires Inv(s) && k < |s.calls| && s.calls[k].Holding? && s.calls[k].attempt.Over?
    ensures k in s.accepted && (s.calls[k].attempt.consumed.StreamEnded? ==> s.childGone)
    ensures var a, m := s.calls[k].attempt, s.accepted[k].messageId;
            ResultOf(a.consumed).SubagentNoReply?
            <==> || (exists t: nat :: t < a.start && Terminates(s.child.log, t, m))
                 || (a.consumed.StreamEnded? && forall t: nat :: Terminates(s.child.log, t, m) ==> a.p.offset <= t)
  {
    assert CallSound(s, k);
    NoReplyOf(s.child.log, s.calls[k].attempt, s.accepted[k], s.calls[k].from);
  }

  lemma NoReplyOf(log: seq<Envelope>, a: Attempt, r: Reply, from: nat)
    requires Grammatical(log) && ReplySound(log, r) && a.Over? && AttemptSound(log, a, r, from)
    ensures ResultOf(a.consumed).SubagentNoReply?
            <==> || (exists t: nat :: t < a.start && Terminates(log, t, r.messageId))
                 || (a.consumed.StreamEnded? && forall t: nat :: Terminates(log, t, r.messageId) ==> a.p.offset <= t)
  {
    var m := r.messageId;
    if ResultOf(a.consumed).SubagentNoReply? {
      if a.consumed.Stopped? {
        var t := TerminalsPrecedeTurnEnd(log, a.p.offset - 1, r.acceptedOffset, m);
        assert forall x: nat :: a.start <= x < a.p.offset ==> !Terminates(log, x, m);
      }
    } else {
      var x := ReadTerminal(log, a, r, from);
      forall t: nat | Terminates(log, t, m)
        ensures t == x
      {
        EventsOfOneMessage(log, t, x, m);
      }
    }
  }

  /** A reading that gives a result has read the terminal. */
  lemma ReadTerminal(log: seq<Envelope>, a: Attempt, r: Reply, from: nat) returns (x: nat)
    requires a.Over? && AttemptSound(log, a, r, from) && !ResultOf(a.consumed).SubagentNoReply?
    ensures a.start <= x < a.p.offset && Terminates(log, x, r.messageId)
  {
    match a.consumed
    case Stopped(reply, _) =>
      x :| a.start <= x < a.p.offset && Terminates(log, x, r.messageId) && log[x].event == MessageHandlerEnd(reply.value);
    case StreamEnded(reply, _) =>
      x :| a.start <= x < a.p.offset && Terminates(log, x, r.messageId) && log[x].event == MessageHandlerEnd(reply.value);
    case TurnError(_, _) => x := a.p.offset - 1;
  }

  lemma AcceptedByStep(cfg: T.Config, s: State, step: Step, k: nat)
    requires k in s.accepted
    ensures k in Apply(cfg, s, step).accepted && Apply(cfg, s, step).accepted[k] == s.accepted[k]
    ensures step == Submit(k) || step == LateSubmit(k) ==> Apply(cfg, s, step).child == s.child
  {
    if Enabled(cfg, s, step) {
      match step
      case Submit(j) => AcceptedBySubmit(cfg, s, j, k);
      case _ =>
    }
  }

  lemma AcceptedBySubmit(cfg: T.Config, s: State, j: nat, k: nat)
    requires k in s.accepted && j < |s.calls| && s.calls[j].Holding?
    ensures var t := SubmitStep(cfg, s, j); k in t.accepted && t.accepted[k] == s.accepted[k]
    ensures j == k ==> SubmitStep(cfg, s, j).child == s.child
  {
  }

  /** Across any retries, crashes and attempts given up the child admits a call's send at most once:
      the first acceptance stays the answer, and re-sending does not touch the child. */
  lemma {:induction false} SendsOnce(cfg: T.Config, s: State, steps: seq<Step>, k: nat)
    requires k in s.accepted
    ensures var t := Exec(cfg, s, steps);
            && k in t.accepted && t.accepted[k] == s.accepted[k]
            && Apply(cfg, t, Submit(k)).child == t.child && Apply(cfg, t, LateSubmit(k)).child == t.child
    decreases |steps|
  {
    if |steps| > 0 {
      AcceptedByStep(cfg, s, steps[0], k);
      SendsOnce(cfg, Apply(cfg, s, steps[0]), steps[1..], k);
    } else {
      AcceptedByStep(cfg, s, Submit(k), k);
      AcceptedByStep(cfg, s, LateSubmit(k), k);
    }
  }

  predicate Sends(step: Step, k: nat) {
    step == Submit(k) || step == LateSubmit(k)
  }

  /** Said of the child's log: of all the sends of one call in a run, at most one adds anything to
      the child, and that is the acceptance of its message. */
  lemma OneAcceptancePerCall(cfg: T.Config, steps: seq<Step>, i: nat, j: nat, k: nat)
    requires i < j < |steps| && Sends(steps[i], k) && Sends(steps[j], k)
    requires var s := Exec(cfg, Start(T.INIT), steps[..i]); Apply(cfg, s, steps[i]).child != s.child
    ensures var t := Exec(cfg, Start(T.INIT), steps[..j]); Apply(cfg, t, steps[j]).child == t.child
    ensures var s := Exec(cfg, Start(T.INIT), steps[..i]);
            var r := Apply(cfg, s, steps[i]);
            && k in r.accepted && |r.child.log| == |s.child.log| + 1
            && Accepts(r.child.log, |s.child.log|, r.accepted[k].messageId)
  {
    var s0 := Start(T.INIT);
    var s := Exec(cfg, s0, steps[..i]);
    SendAccepts(cfg, s, steps[i], k);
    var r := Apply(cfg, s, steps[i]);
    assert steps[..i + 1] == steps[..i] + [steps[i]];
    ExecAppend(cfg, s0, steps[..i], [steps[i]]);
    assert Exec(cfg, s, [steps[i]]) == Exec(cfg, r, []);
    assert steps[..j] == steps[..i + 1] + steps[i + 1..j];
    ExecAppend(cfg, s0, steps[..i + 1], steps[i + 1..j]);
    SendsOnce(cfg, r, steps[i + 1..j], k);
  }

  lemma SendAccepts(cfg: T.Config, s: State, step: Step, k: nat)
    requires Sends(step, k) && Apply(cfg, s, step).child != s.child
    ensures var r := Apply(cfg, s, step);
            && k in r.accepted && |r.child.log| == |s.child.log| + 1
            && Accepts(r.child.log, |s.child.log|, r.accepted[k].messageId)
  {
    if step.Submit? {
      var m := s.calls[k].message;
      assert Apply(cfg, s, step) == SubmitStep(cfg, s, k);
      AcceptanceIsPublished(cfg, s, k, m);
    } else {
      AcceptanceIsPublished(cfg, s, k, s.strays[k].message);
    }
  }

  lemma AcceptanceIsPublished(cfg: T.Config, s: State, k: nat, m: Message)
    requires T.Validate(cfg, s.child, m).None?
    ensures var r := AcceptStep(cfg, s, k, m);
            && |r.child.log| == |s.child.log| + 1
            && Accepts(r.child.log, |s.child.log|, r.accepted[k].messageId)
  {
  }

  /** The windows that successful turns consumed are adjacent and lie within the child's stream. */
  lemma WindowsOfEveryRun(cfg: T.Config, steps: seq<Step>)
    ensures var s := Exec(cfg, Start(T.INIT), steps);
            Adjacent(s.windows, s.lastConsumed) && s.lastConsumed <= |s.child.log|
  {
    EveryRunKeeps(cfg, steps);
  }
}
