/** Reading one child turn to completion: the parent's activity subscribes to the child's
    stream from an offset, picks its own message's terminal out of a turn that may have many
    participants, and stops at the turn's `turn_end`. A crashed attempt resumes from a
    heartbeat memo, which holds an offset but not the reply. */
module TurnConsumer {
  import opened Protocol
  import opened TurnGrammar
  import opened TurnMachine
  import opened TurnSafety
  import opened TurnLog
  import opened TurnTheorems

  /** How a reading ended, and the offset just past the last item seen. */
  datatype Consumed =
    | Stopped(reply: Option<string>, offset: nat)
    | TurnError(message: string, offset: nat)
    | StreamEnded(reply: Option<string>, offset: nat)

  /** An error that says nothing is given words. */
  function ErrorText(message: string): string {
    if message != "" then message else "subagent turn failed"
  }

  /** The reading loop as a fold over the child's log from `from`. */
  function Consume(log: seq<Envelope>, from: nat, turnId: Uuid, m: Uuid, reply: Option<string>): Consumed
    requires from <= |log|
    decreases |log| - from
  {
    if from == |log| then StreamEnded(reply, from)
    else
      var e := log[from];
      if e.turnId != Some(turnId) then Consume(log, from + 1, turnId, m, reply)
      else
        var ours := e.messageId == Some(m);
        if ours && e.event.MessageHandlerError? then TurnError(ErrorText(e.event.message), from + 1)
        else
          var reply' := if ours && e.event.MessageHandlerEnd? then Some(e.event.output) else reply;
          if e.event.TurnEnded? then Stopped(reply', from + 1)
          else Consume(log, from + 1, turnId, m, reply')
  }

  /** The heartbeat memo: mutated in place while the child's stream is read. */
  class TurnProgress {
    const turnId: Uuid
    const turnNumber: nat
    const messageId: Uuid
    var consumedOffset: nat

    constructor (turnId: Uuid, turnNumber: nat, messageId: Uuid, consumedOffset: nat)
      ensures this.turnId == turnId && this.turnNumber == turnNumber && this.messageId == messageId
      ensures this.consumedOffset == consumedOffset
    {
      this.turnId, this.turnNumber, this.messageId := turnId, turnNumber, messageId;
      this.consumedOffset := consumedOffset;
    }
  }

  method ConsumeChildTurn(log: seq<Envelope>, progress: TurnProgress) returns (r: Consumed)
    requires progress.consumedOffset <= |log|
    modifies progress
    ensures r == Consume(log, old(progress.consumedOffset), progress.turnId, progress.messageId, None)
    ensures progress.consumedOffset == r.offset
  {
    var reply: Option<string> := None;
    while progress.consumedOffset < |log|
      invariant progress.consumedOffset <= |log|
      invariant Consume(log, progress.consumedOffset, progress.turnId, progress.messageId, reply)
                == Consume(log, old(progress.consumedOffset), progress.turnId, progress.messageId, None)
      decreases |log| - progress.consumedOffset
    {
      var envelope := log[progress.consumedOffset];
      progress.consumedOffset := progress.consumedOffset + 1;
      if envelope.turnId != Some(progress.turnId) {
        continue;
      }
      var ours := envelope.messageId == Some(progress.messageId);
      if ours && envelope.event.MessageHandlerError? {
        return TurnError(ErrorText(envelope.event.message), progress.consumedOffset);
      }
      if ours && envelope.event.MessageHandlerEnd? {
        reply := Some(envelope.event.output);
      }
      if envelope.event.TurnEnded? {
        return Stopped(reply, progress.consumedOffset);
      }
    }
    return StreamEnded(reply, progress.consumedOffset);
  }

  // ---- What the loop sees in a grammatical log ----------------------------------------

  /** Neither our terminal nor our turn's end lies in `[i, j)`. */
  ghost predicate NothingOfOurs(log: seq<Envelope>, i: nat, j: nat, turnId: Uuid, m: Uuid) {
    j <= |log| && forall x :: i <= x < j ==>
      !Terminates(log, x, m) && !(Ends(log, x) && log[x].turnId == Some(turnId))
  }

  lemma {:induction false} SkipAhead(log: seq<Envelope>, i: nat, j: nat, turnId: Uuid, m: Uuid, reply: Option<string>)
    requires i <= j <= |log| && NothingOfOurs(log, i, j, turnId, m)
    ensures Consume(log, i, turnId, m, reply) == Consume(log, j, turnId, m, reply)
    decreases j - i
  {
    if i < j {
      assert !Terminates(log, i, m) && !(Ends(log, i) && log[i].turnId == Some(turnId));
      SkipAhead(log, i + 1, j, turnId, m, reply);
    }
  }

  /** Our message's place in its turn: the terminal lies before the only `turn_end`. */
  lemma PlaceOfReply(log: seq<Envelope>, a: nat, m: Uuid, t: nat, e: nat)
    requires Grammatical(log) && Accepts(log, a, m) && Terminates(log, t, m)
    requires Ends(log, e) && log[e].turnId == log[a].turnId
    ensures a < t < e && log[a].turnId.Some? && log[t].turnId == log[a].turnId
    ensures forall x :: Terminates(log, x, m) ==> x == t
    ensures forall x: nat :: Ends(log, x) && log[x].turnId == log[a].turnId ==> x == e
  {
    var a', b := MessageLife(log, t, m);
    assert a' == a;
    var t' := TerminalsPrecedeTurnEnd(log, e, a, m);
    AtSteps(log, a);
    forall x: nat | Ends(log, x) && log[x].turnId == log[a].turnId
      ensures x == e
    {
      if x < e {
        TurnNeverReopens(log, x, e, log[a].turnId.value);
      } else if e < x {
        TurnNeverReopens(log, e, x, log[a].turnId.value);
      }
    }
  }

  /** What a reading gives, for every starting offset. Over any grammatical log, however many
      siblings share the turn, it returns exactly our message's reply, or raises exactly our
      error, if and only if it starts no later than our terminal. Started after the terminal
      it finds the turn's end and no reply; started after that it finds neither. */
  lemma ConsumeExactly(log: seq<Envelope>, a: nat, m: Uuid, t: nat, e: nat, from: nat)
    requires Grammatical(log) && Accepts(log, a, m) && Terminates(log, t, m)
    requires Ends(log, e) && log[e].turnId == log[a].turnId && from <= |log|
    ensures log[a].turnId.Some?
    ensures var r := Consume(log, from, log[a].turnId.value, m, None);
            && (from <= t ==>
                  r == if log[t].event.MessageHandlerEnd? then Stopped(Some(log[t].event.output), e + 1)
                       else if log[t].event.message != "" then TurnError(log[t].event.message, t + 1)
                       else TurnError("subagent turn failed", t + 1))
            && (t < from <= e ==> r == Stopped(None, e + 1))
            && (e < from ==> r == StreamEnded(None, |log|))
  {
    PlaceOfReply(log, a, m, t, e);
    var turnId := log[a].turnId.value;
    if from <= t {
      SkipAhead(log, from, t, turnId, m, None);
      if log[t].event.MessageHandlerEnd? {
        var reply := Some(log[t].event.output);
        SkipAhead(log, t + 1, e, turnId, m, reply);
        assert Consume(log, e, turnId, m, reply) == Stopped(reply, e + 1);
      }
    } else if from <= e {
      SkipAhead(log, from, e, turnId, m, None);
    } else {
      SkipAhead(log, from, |log|, turnId, m, None);
    }
  }

  /** The activity's outcome as the calling tool sees it. */
  datatype TurnResult = Answered(output: string) | SubagentTurnError(message: string) | SubagentNoReply

  function ResultOf(r: Consumed): TurnResult {
    match r
    case TurnError(message, _) => SubagentTurnError(message)
    case Stopped(reply, _) => if reply.Some? then Answered(reply.value) else SubagentNoReply
    case StreamEnded(reply, _) => if reply.Some? then Answered(reply.value) else SubagentNoReply
  }

  /** A resumed attempt gives our message's own result if and only if its memo's offset is not
      past our terminal; otherwise the reply is lost. */
  lemma ResumeIff(log: seq<Envelope>, a: nat, m: Uuid, t: nat, e: nat, memo: nat)
    requires Grammatical(log) && Accepts(log, a, m) && Terminates(log, t, m)
    requires Ends(log, e) && log[e].turnId == log[a].turnId && memo <= |log|
    ensures log[a].turnId.Some?
    ensures var own := if log[t].event.MessageHandlerEnd? then Answered(log[t].event.output)
                       else if log[t].event.message != "" then SubagentTurnError(log[t].event.message)
                       else SubagentTurnError("subagent turn failed");
            var got := ResultOf(Consume(log, memo, log[a].turnId.value, m, None));
            && (got == own <==> memo <= t)
            && (got == SubagentNoReply <==> t < memo)
  {
    ConsumeExactly(log, a, m, t, e, memo);
  }

  /** The composition: a parent sends `m` to a child in any reachable state and starts reading
      at any offset the stream had then. Whatever the child does next, once our message has
      its terminal and its turn has ended, the reading returns our message's own result. */
  lemma FirstAttemptIsExact(cfg: Config, child: State, msg: Message, from: nat, more: seq<Step>, t: nat, e: nat)
    requires Inv(child) && LogInv(child) && Validate(cfg, child, msg).None? && from <= |child.log|
    requires var after := Exec(cfg, AdmitValid(cfg, child, msg), more);
             var reply := ReplyTo(cfg, child, msg);
             !after.abandoned && Terminates(after.log, t, reply.messageId)
             && Ends(after.log, e) && after.log[e].turnId == Some(reply.turnId)
    ensures var log := Exec(cfg, AdmitValid(cfg, child, msg), more).log;
            var reply := ReplyTo(cfg, child, msg);
            from <= |log| &&
            ResultOf(Consume(log, from, reply.turnId, reply.messageId, None))
            == if log[t].event.MessageHandlerEnd? then Answered(log[t].event.output)
               else if log[t].event.message != "" then SubagentTurnError(log[t].event.message)
               else SubagentTurnError("subagent turn failed")
  {
    var after := Exec(cfg, AdmitValid(cfg, child, msg), more);
    var reply := ReplyTo(cfg, child, msg);
    ReplyOffset(cfg, child, msg, more);
    PlaceOfReply(after.log, reply.acceptedOffset, reply.messageId, t, e);
    ConsumeExactly(after.log, reply.acceptedOffset, reply.messageId, t, e, from);
  }
}
