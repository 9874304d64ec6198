/** The client that sends one message and streams the turn it got, over the agent's own stream:
    skip from the accepted offset to that turn's `turn_started`, emit up to its `turn_end`, and
    put the caller's own handler error in place of the raw event. */
module AgentClient {
  import opened Protocol
  import opened TurnGrammar
  import T = TurnMachine
  import S = TurnSafety
  import L = TurnLog
  import H = TurnTheorems

  datatype Item = Emitted(envelope: Envelope) | AgentTurnError(message: string)

  datatype Sent = JoinedTurnError(reply: Reply) | Streamed(items: seq<Item>, stopped: bool)

  predicate StartsTurn(e: Envelope, turnId: Uuid) {
    e.event.TurnStarted? && e.turnId == Some(turnId)
  }

  predicate EndsTurn(e: Envelope, turnId: Uuid) {
    e.event.TurnEnded? && e.turnId == Some(turnId)
  }

  function Emit(e: Envelope, m: Uuid): Item {
    if e.messageId == Some(m) && e.event.MessageHandlerError? then
      AgentTurnError(if e.event.message != "" then e.event.message else "agent turn failed")
    else Emitted(e)
  }

  function EmitAll(log: seq<Envelope>, m: Uuid): (items: seq<Item>)
    ensures |items| == |log| && forall i :: 0 <= i < |log| ==> items[i] == Emit(log[i], m)
  {
    seq(|log|, i requires 0 <= i < |log| => Emit(log[i], m))
  }

  /** Where the skip ends: the turn's `turn_started`, or the end of what has been published. */
  function SkipTo(log: seq<Envelope>, from: nat, turnId: Uuid): (first: nat)
    requires from <= |log|
    ensures from <= first <= |log| && (first < |log| ==> StartsTurn(log[first], turnId))
    ensures forall x :: from <= x < first ==> !StartsTurn(log[x], turnId)
    decreases |log| - from
  {
    if from == |log| || StartsTurn(log[from], turnId) then from else SkipTo(log, from + 1, turnId)
  }

  /** Just past the turn's `turn_end`, or the end of what has been published. */
  function PastEnd(log: seq<Envelope>, from: nat, turnId: Uuid): (end: nat)
    requires from <= |log|
    ensures from <= end <= |log| && (end < |log| ==> from < end && EndsTurn(log[end - 1], turnId))
    ensures forall x :: from <= x < end - 1 ==> !EndsTurn(log[x], turnId)
    decreases |log| - from
  {
    if from == |log| then from
    else if EndsTurn(log[from], turnId) then from + 1
    else PastEnd(log, from + 1, turnId)
  }

  /** The item shows the event as it was published, or, exactly for the message's own error, that
      error in its own words if it has any. */
  predicate ShowsOwn(item: Item, e: Envelope, m: Uuid) {
    match item
    case Emitted(raw) => raw == e && !(e.messageId == Some(m) && e.event.MessageHandlerError?)
    case AgentTurnError(text) =>
      && e.messageId == Some(m) && e.event.MessageHandlerError?
      && text == (if e.event.message != "" then e.event.message else "agent turn failed")
  }

  method MergedTurn(log: seq<Envelope>, reply: Reply) returns (items: seq<Item>, stopped: bool)
    requires reply.acceptedOffset <= |log|
    ensures var first := SkipTo(log, reply.acceptedOffset, reply.turnId);
            var end := PastEnd(log, first, reply.turnId);
            && items == EmitAll(log[first..end], reply.messageId)
            && (stopped <==> first < end && EndsTurn(log[end - 1], reply.turnId))
  {
    var i := reply.acceptedOffset;
    ghost var first := SkipTo(log, i, reply.turnId);
    var skipping := true;
    items := [];
    while i < |log|
      invariant i <= |log|
      invariant if skipping then i <= first && items == [] else first < i && items == EmitAll(log[first..i], reply.messageId)
      invariant !skipping ==> PastEnd(log, first, reply.turnId) == PastEnd(log, i, reply.turnId)
      invariant forall x :: first <= x < i ==> !EndsTurn(log[x], reply.turnId)
    {
      var e := log[i];
      i := i + 1;
      if skipping {
        if !StartsTurn(e, reply.turnId) {
          continue;
        }
        skipping := false;
      }
      items := items + [Emit(e, reply.messageId)];
      assert log[first..i] == log[first..i - 1] + [e];
      if EndsTurn(e, reply.turnId) {
        return items, true;
      }
    }
    stopped := false;
    assert skipping ==> first == |log|;
  }

  /** Over a grammatical log that holds the reply's own acceptance: a message that joined fails
      fast; any other is streamed exactly its turn's bracket, from `turn_started` to `turn_end`,
      once that has been published. */
  method SendMessage(log: seq<Envelope>, reply: Reply) returns (r: Sent)
    requires Grammatical(log) && Accepts(log, reply.acceptedOffset, reply.messageId)
    requires Matches(log[reply.acceptedOffset], reply)
    ensures r.JoinedTurnError? <==> reply.disposition.JOINED?
    ensures r.Streamed? ==> forall s: nat, e: nat :: Bracket(log, reply.turnId, s, e) ==>
              r == Streamed(EmitAll(log[s..e + 1], reply.messageId), true)
    ensures r.Streamed? && (forall s: nat :: !Started(log, reply.turnId, s)) ==> r == Streamed([], false)
    ensures r.Streamed? ==> forall s: nat, e: nat :: Bracket(log, reply.turnId, s, e) ==>
              && |r.items| == e + 1 - s
              && forall k :: s <= k <= e ==> ShowsOwn(r.items[k - s], log[k], reply.messageId)
  {
    if reply.disposition.JOINED? {
      return JoinedTurnError(reply);
    }
    var items, stopped := MergedTurn(log, reply);
    ghost var first := SkipTo(log, reply.acceptedOffset, reply.turnId);
    assert first < |log| ==> Started(log, reply.turnId, first);
    forall s: nat, e: nat | Bracket(log, reply.turnId, s, e)
      ensures items == EmitAll(log[s..e + 1], reply.messageId) && stopped
    {
      OffsetContract(log, reply.acceptedOffset, reply.messageId);
      assert StartsTurn(log[s], reply.turnId);
      OneBracket(log, reply.turnId, s, e, first);
      EndOfBracket(log, reply.turnId, s, e);
    }
    return Streamed(items, stopped);
  }

  lemma EndOfBracket(log: seq<Envelope>, turnId: Uuid, s: nat, e: nat)
    requires Bracket(log, turnId, s, e)
    requires forall x: nat :: Ends(log, x) && log[x].turnId == Some(turnId) ==> x == e
    ensures PastEnd(log, s, turnId) == e + 1 && EndsTurn(log[e], turnId)
  {
    var end := PastEnd(log, s, turnId);
    assert EndsTurn(log[e], turnId);
    assert end > e;
    if end < |log| {
      assert Ends(log, end - 1);
    }
  }

  predicate Matches(e: Envelope, reply: Reply) {
    e.turnId == Some(reply.turnId) && e.turnNumber == reply.turnNumber
    && e.event.MessageAccepted? && e.event.disposition == reply.disposition
  }

  predicate Started(log: seq<Envelope>, turnId: Uuid, x: nat) {
    Opens(log, x) && log[x].turnId == Some(turnId)
  }

  /** The turn's own bracket: opened at `s`, ended at `e`. */
  predicate Bracket(log: seq<Envelope>, turnId: Uuid, s: nat, e: nat) {
    s < e && Opens(log, s) && Ends(log, e) && log[s].turnId == log[e].turnId == Some(turnId)
  }

  /** A turn id has one opening and one end. */
  lemma OneBracket(log: seq<Envelope>, turnId: Uuid, s: nat, e: nat, s': nat)
    requires Grammatical(log) && Bracket(log, turnId, s, e)
    requires s' < |log| ==> Opens(log, s') && log[s'].turnId == Some(turnId)
    requires s' <= s
    ensures s' == s
    ensures forall x: nat :: Ends(log, x) && log[x].turnId == Some(turnId) ==> x == e
  {
    if s' < s {
      var k := BracketsNeverNest(log, s', s);
    }
    forall x: nat | Ends(log, x) && log[x].turnId == Some(turnId)
      ensures x == e
    {
      if x < e {
        TurnNeverReopens(log, x, e, turnId);
      } else if e < x {
        TurnNeverReopens(log, e, x, turnId);
      }
    }
  }

  /** Failing fast is exact: whatever the agent does after accepting the message, once its turn
      has been started the skip finds that `turn_started` at or past the reply's offset if and
      only if the message did not join. */
  lemma SkipMatchesIff(cfg: T.Config, s: T.State, m: Message, more: seq<T.Step>)
    requires S.Inv(s) && L.LogInv(s) && T.Validate(cfg, s, m).None?
    requires !T.Exec(cfg, T.AdmitValid(cfg, s, m), more).abandoned
    requires exists x: nat :: Started(T.Exec(cfg, T.AdmitValid(cfg, s, m), more).log, T.ReplyTo(cfg, s, m).turnId, x)
    ensures var log, reply := T.Exec(cfg, T.AdmitValid(cfg, s, m), more).log, T.ReplyTo(cfg, s, m);
            (exists x: nat :: reply.acceptedOffset <= x && Started(log, reply.turnId, x)) <==> !reply.disposition.JOINED?
  {
    H.ReplyOffset(cfg, s, m, more);
  }
}
