/** What each step of the driver does with what it was given: the message that is sent, the marker
    that opens and the one that closes, the offsets, and what a retry goes on from. */
module SubagentEffects {
  import opened Protocol
  import opened TurnGrammar
  import T = TurnMachine
  import opened TurnConsumer
  import opened SubagentDriver
  import opened SubagentTheorems

  /** The child's stream has one more event, the acceptance of just this message. */
  ghost predicate AcceptedBy(s: State, t: State, m: Message, r: Reply) {
    && r.acceptedOffset == |s.child.log| && |t.child.log| == |s.child.log| + 1 && s.child.log <= t.child.log
    && var e := t.child.log[|s.child.log|];
       && e.turnId == Some(r.turnId) && e.turnNumber == r.turnNumber && e.messageId == Some(r.messageId)
       && e.event == MessageAccepted(m.kind, m.payload, r.disposition)
  }

  /** What a first send does: the child accepts the call's own message and the attempt keeps the ids
      it was given, to read from where the call said; or the call fails with the child's own
      reason, and the gate passes. */
  lemma SendSays(cfg: T.Config, s: State, k: nat)
    requires Enabled(cfg, s, Submit(k)) && !s.childGone && k !in s.accepted
    ensures var t := Apply(cfg, s, Submit(k));
            var c := s.calls[k];
            match T.Admit(cfg, s.child, c.message).1
            case Accepted(r) =>
              && t.accepted == s.accepted[k := r] && AcceptedBy(s, t, c.message, r)
              && t.calls == s.calls[k := c.(attempt := Sent(Progress(r.turnId, r.turnNumber, r.messageId, c.from)))]
              && t.serving == s.serving && t.markers == s.markers
            case Rejected(error) => t == s.(calls := s.calls[k := Done(SendRejected(error))], serving := s.serving + 1)
  {
  }

  /** A send that was accepted before gets the same reply and leaves the child alone; one to a child
      that is gone fails. */
  lemma ResendSays(cfg: T.Config, s: State, k: nat)
    requires Enabled(cfg, s, Submit(k)) && (s.childGone || k in s.accepted)
    ensures var t := Apply(cfg, s, Submit(k));
            var c := s.calls[k];
            && (s.childGone ==> t == s.(calls := s.calls[k := Done(ChildEnded)], serving := s.serving + 1))
            && (!s.childGone ==>
                  var r := s.accepted[k];
                  t == s.(calls := s.calls[k := c.(attempt := Sent(Progress(r.turnId, r.turnNumber, r.messageId, c.from)))]))
  {
  }

  /** The opening marker bears the accepted number, and the offset where the last answered turn's
      window ended. */
  lemma MarkerSays(cfg: T.Config, s: State, k: nat)
    requires Inv(s) && Enabled(cfg, s, PublishMarker(k))
    ensures k in s.accepted
    ensures Apply(cfg, s, PublishMarker(k)).markers == s.markers + [MessageSent(s.accepted[k].turnNumber, s.lastConsumed)]
  {
    HolderServes(s, k);
    assert CallSound(s, k);
  }

  /** The closing marker bears the same number and is ok exactly for an answer; only an answer moves
      the offset the next turn is read from, to where this reading ended, with or without a turn
      open to close in. */
  lemma CloseSays(cfg: T.Config, s: State, k: nat, turnOpen: bool)
    requires Inv(s) && Enabled(cfg, s, Deliver(k, turnOpen))
    ensures k in s.accepted
    ensures var t := Apply(cfg, s, Deliver(k, turnOpen));
            var r := ResultOf(s.calls[k].attempt.consumed);
            && t.calls == s.calls[k := Done(if turnOpen then Turn(r) else Unclosed)] && t.serving == s.serving + 1
            && t.markers == (if turnOpen then s.markers + [ReplyReceived(s.accepted[k].turnNumber, r.Answered?)] else s.markers)
            && t.lastConsumed == (if r.Answered? then s.calls[k].attempt.p.offset else s.lastConsumed)
  {
    OverIsOwn(s, k);
  }

  /** A call that goes on after its wait reads from where the last answered turn's window ended. */
  lemma DispatchSays(cfg: T.Config, s: State, k: nat, turnOpen: bool)
    requires Enabled(cfg, s, PassGate(k, turnOpen))
    ensures var t := Apply(cfg, s, PassGate(k, turnOpen));
            var m := s.calls[k].message;
            && (s.serving == k && turnOpen ==> t == s.(calls := s.calls[k := Holding(m, s.lastConsumed, None, Fresh)]))
            && (s.serving == k && !turnOpen ==> t == s.(calls := s.calls[k := Done(NoActiveTurn)], serving := s.serving + 1))
            && (s.serving != k ==> s.closed && t == s.(calls := s.calls[k := GaveUp]))
  {
  }

  /** The memo is the attempt's own ids with an offset it has read to; a retry goes on reading from
      it without sending anything, and sends again only when there is none. */
  lemma RetrySays(cfg: T.Config, s: State, k: nat, step: Step)
    requires Enabled(cfg, s, step) && (step == Crash(k) || step == TimeOut(k))
    ensures var t := Apply(cfg, s, step);
            var c := s.calls[k];
            && t.calls == s.calls[k := c.(attempt := t.calls[k].attempt)]
            && (c.memo.None? ==> t.calls[k].attempt == Fresh)
            && (c.memo.Some? ==> t.calls[k].attempt == Consuming(c.memo.value, c.memo.value.offset, None))
            && t.child == s.child && t.markers == s.markers && t.accepted == s.accepted
            && (step.Crash? ==> t.strays == s.strays)
            && (step.TimeOut? ==> t.strays == s.strays[k := Stray(c.message, c.from)])
  {
  }

  lemma MemoSays(cfg: T.Config, s: State, k: nat, o: nat)
    requires Enabled(cfg, s, RecordMemo(k, o))
    ensures var t := Apply(cfg, s, RecordMemo(k, o));
            var c := s.calls[k];
            var p := c.attempt.p;
            t == s.(calls := s.calls[k := c.(memo := Some(Progress(p.turnId, p.turnNumber, p.messageId, o)))])
  {
  }

  /** A call that is cut short passes the gate, publishes nothing, and leaves behind an attempt that
      knows its message and its offset; a late send then sends that message, and a late marker
      tells of that offset. */
  lemma CutShortSays(cfg: T.Config, s: State, k: nat)
    requires Enabled(cfg, s, FailOtherwise(k))
    ensures var t := Apply(cfg, s, FailOtherwise(k));
            var c := s.calls[k];
            t == s.(calls := s.calls[k := CutShort], serving := s.serving + 1, strays := s.strays[k := Stray(c.message, c.from)])
  {
  }

  lemma LateSendSays(cfg: T.Config, s: State, k: nat)
    requires Enabled(cfg, s, LateSubmit(k))
    ensures var t := Apply(cfg, s, LateSubmit(k));
            && k in t.accepted && AcceptedBy(s, t, s.strays[k].message, t.accepted[k])
            && t.calls == s.calls && t.markers == s.markers
  {
  }

  lemma LateMarkerSays(cfg: T.Config, s: State, k: nat)
    requires Enabled(cfg, s, LateMarker(k))
    ensures var t := Apply(cfg, s, LateMarker(k));
            t.markers == s.markers + [MessageSent(s.accepted[k].turnNumber, s.strays[k].from)] && t.calls == s.calls
  {
  }
}
