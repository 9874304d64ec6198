/** The UI connector's loop: poll the session stream from a cursor, filter and translate what
    belongs to one request, deliver it, until the reply is final. */
module Router {
  import opened Collections
  import opened Protocol
  import opened TurnGrammar

  datatype ToolPhase = ToolRunning | ToolComplete | ToolErrored

  datatype OutEvent =
    | TurnStartedEvent
    | Text(text: string)
    | Usage(model: string, tokens: Option<nat>)
    | Thought(delta: string)
    | Tool(id: ToolId, name: string, phase: ToolPhase, detail: string)
    | Citations(urls: seq<string>)
    | HandlerOutput(value: string)
    | Error(message: string)
    | ApprovalAsked(id: ToolId, name: string)
    | ApprovalAnswered(id: ToolId, name: string, approved: bool, remember: bool, why: Option<string>)

  /** The handle of a running request; `messageId` scopes it to one message when present. */
  datatype Handle = Handle(turnNumber: nat, messageId: Option<Uuid>, cursor: nat)
  {
    predicate MessageScoped() { messageId.Some? }
  }

  /** One item of the session stream; `decoded` is `None` when its payload does not decode. */
  datatype Item = Item(turnEvents: bool, decoded: Option<Envelope>)

  /** The output of one event, and whether it ends the reply. */
  function Translate(e: Event, messageScoped: bool): (Option<OutEvent>, bool) {
    match e
    case ReplyDelta(text) => (if text != "" then Some(Text(text)) else None, false)
    case ModelInteractionEnded(model, usage) =>
      (if usage.Some? || model != "" then Some(Usage(model, usage)) else None, false)
    case ThoughtSummary(text) => (if text != "" then Some(Thought(text)) else None, false)
    case ToolStart(id, name) => (Some(Tool(id, name, ToolRunning, "")), false)
    case ToolEnd(id, name, o) => (Some(Tool(id, name, ToolComplete, o)), false)
    case ToolError(id, name, m) => (Some(Tool(id, name, ToolErrored, m)), false)
    case TextAnnotation(urls) => (if |urls| > 0 then Some(Citations(urls)) else None, false)
    case TurnEnded => (None, !messageScoped)
    case MessageHandlerEnd(o) => (Some(HandlerOutput(o)), messageScoped)
    case MessageHandlerError(m) => (Some(Error("The agent's handler failed: " + m)), messageScoped)
    case ToolApprovalRequested(id, name) => (Some(ApprovalAsked(id, name)), false)
    case ToolApprovalResolved(id, name, approved, why, remember) =>
      (Some(ApprovalAnswered(id, name, approved, remember, why)), false)
    case _ => (None, false)
  }

  /** A message-scoped reply keeps its own message's events and those with no message; a
      turn-scoped one keeps its turn number's. */
  predicate Kept(h: Handle, i: Item) {
    i.turnEvents && i.decoded.Some?
    && if h.MessageScoped() then i.decoded.value.messageId.None? || i.decoded.value.messageId == h.messageId
       else i.decoded.value.turnNumber == h.turnNumber
  }

  function Output(h: Handle, i: Item): seq<OutEvent> {
    if !Kept(h, i) then []
    else
      var o := Translate(i.decoded.value.event, h.MessageScoped()).0;
      if o.Some? then [o.value] else []
  }

  predicate Final(h: Handle, i: Item) {
    Kept(h, i) && Translate(i.decoded.value.event, h.MessageScoped()).1
  }

  datatype Pass = Pass(events: seq<OutEvent>, final: bool)

  /** One pass of filter-and-translate, up to the first final event. */
  function OnePass(h: Handle, items: seq<Item>): Pass {
    if items == [] then Pass([], false)
    else if Final(h, items[0]) then Pass(Output(h, items[0]), true)
    else
      var rest := OnePass(h, items[1..]);
      Pass(Output(h, items[0]) + rest.events, rest.final)
  }

  /** A pass does not depend on where the items are cut. */
  lemma {:induction false} PassSplits(h: Handle, xs: seq<Item>, ys: seq<Item>)
    ensures OnePass(h, xs + ys) ==
            if OnePass(h, xs).final then OnePass(h, xs)
            else Pass(OnePass(h, xs).events + OnePass(h, ys).events, OnePass(h, ys).final)
    decreases |xs|
  {
    if xs == [] {
      assert xs + ys == ys;
    } else {
      assert (xs + ys)[1..] == xs[1..] + ys;
      PassSplits(h, xs[1..], ys);
    }
  }

  /** Only what the handle scopes to matters, not its cursor. */
  lemma {:induction false} PassIgnoresCursor(h: Handle, c: nat, items: seq<Item>)
    ensures OnePass(h.(cursor := c), items) == OnePass(h, items)
    decreases |items|
  {
    if items != [] {
      PassIgnoresCursor(h, c, items[1..]);
    }
  }

  // ---- What a pass delivers -----------------------------------------------------------

  /** The envelopes a reply listens to: those of its own message and of no message, or those of
      its turn number. */
  predicate Hears(h: Handle, i: Item) {
    && i.turnEvents && i.decoded.Some?
    && (h.messageId.Some? ==> i.decoded.value.messageId.None? || i.decoded.value.messageId == h.messageId)
    && (h.messageId.None? ==> i.decoded.value.turnNumber == h.turnNumber)
  }

  /** The event that ends the reply: a terminal of the message, or the end of the turn. */
  predicate Concludes(h: Handle, e: Event) {
    if h.messageId.Some? then e.MessageHandlerEnd? || e.MessageHandlerError? else e.TurnEnded?
  }

  predicate ConcludesAt(h: Handle, items: seq<Item>, i: nat) {
    i < |items| && Hears(h, items[i]) && Concludes(h, items[i].decoded.value.event)
  }

  /** What the reply hears, in order, up to the event that ends it. */
  function Heard(h: Handle, items: seq<Item>): seq<Event> {
    if items == [] then []
    else if !Hears(h, items[0]) then Heard(h, items[1..])
    else if Concludes(h, items[0].decoded.value.event) then [items[0].decoded.value.event]
    else [items[0].decoded.value.event] + Heard(h, items[1..])
  }

  /** The events a reader is shown something for. */
  predicate IsShown(e: Event) {
    || (e.ReplyDelta? && e.text != "") || (e.ThoughtSummary? && e.text != "")
    || (e.TextAnnotation? && e.citations != []) || (e.ModelInteractionEnded? && (e.usage.Some? || e.model != ""))
    || e.ToolStart? || e.ToolEnd? || e.ToolError? || e.MessageHandlerEnd? || e.MessageHandlerError?
    || e.ToolApprovalRequested? || e.ToolApprovalResolved?
  }

  function Shown(events: seq<Event>): seq<Event> {
    if events == [] then [] else (if IsShown(events[0]) then [events[0]] else []) + Shown(events[1..])
  }

  /** What the delivered `o` tells of: the one event it can have come from. */
  predicate Tells(o: OutEvent, e: Event) {
    match o
    case Text(text) => e == ReplyDelta(text)
    case Thought(delta) => e == ThoughtSummary(delta)
    case Citations(urls) => e == TextAnnotation(urls)
    case Usage(model, tokens) => e == ModelInteractionEnded(model, tokens)
    case Tool(id, name, ToolRunning, detail) => e == ToolStart(id, name) && detail == ""
    case Tool(id, name, ToolComplete, detail) => e == ToolEnd(id, name, detail)
    case Tool(id, name, ToolErrored, detail) => e == ToolError(id, name, detail)
    case HandlerOutput(value) => e == MessageHandlerEnd(value)
    case Error(message) => e.MessageHandlerError? && message == "The agent's handler failed: " + e.message
    case ApprovalAsked(id, name) => e == ToolApprovalRequested(id, name)
    case ApprovalAnswered(id, name, approved, remember, why) => e == ToolApprovalResolved(id, name, approved, why, remember)
    case TurnStartedEvent => false
  }

  /** `out` tells of exactly these events, one for one and in order. */
  ghost predicate Relays(out: seq<OutEvent>, said: seq<Event>) {
    |out| == |said| && forall k :: 0 <= k < |said| ==> Tells(out[k], said[k])
  }

  lemma TranslateTells(e: Event, messageScoped: bool)
    ensures var (out, final) := Translate(e, messageScoped);
            && (out.Some? <==> IsShown(e)) && (out.Some? ==> Tells(out.value, e))
            && (final <==> Concludes(Handle(0, if messageScoped then Some(0) else None, 0), e))
  {
  }

  lemma ItemTells(h: Handle, i: Item)
    ensures Kept(h, i) <==> Hears(h, i)
    ensures Hears(h, i) ==> Relays(Output(h, i), Shown([i.decoded.value.event])) && (Final(h, i) <==> Concludes(h, i.decoded.value.event))
    ensures !Hears(h, i) ==> Output(h, i) == [] && !Final(h, i)
  {
    if Kept(h, i) {
      var e := i.decoded.value.event;
      TranslateTells(e, h.MessageScoped());
      assert Shown([e]) == if IsShown(e) then [e] else [];
    }
  }

  lemma RelaysBoth(a: seq<OutEvent>, b: seq<OutEvent>, x: seq<Event>, y: seq<Event>)
    requires Relays(a, x) && Relays(b, y)
    ensures Relays(a + b, x + y)
  {
  }

  /** What a pass delivers is exactly what the reply hears and a reader is shown, in order, each
      event as it was published; and it is final exactly when it heard the event that ends
      the reply. */
  lemma {:induction false} PassRelays(h: Handle, items: seq<Item>)
    ensures Relays(OnePass(h, items).events, Shown(Heard(h, items)))
    ensures OnePass(h, items).final <==> exists i: nat :: ConcludesAt(h, items, i)
    decreases |items|
  {
    if items != [] {
      ItemTells(h, items[0]);
      PassRelays(h, items[1..]);
      if Hears(h, items[0]) && !Concludes(h, items[0].decoded.value.event) {
        var e := items[0].decoded.value.event;
        assert Shown([e] + Heard(h, items[1..])) == Shown([e]) + Shown(Heard(h, items[1..])) by {
          assert ([e] + Heard(h, items[1..]))[1..] == Heard(h, items[1..]);
        }
        RelaysBoth(Output(h, items[0]), OnePass(h, items[1..]).events, Shown([e]), Shown(Heard(h, items[1..])));
      } else if Hears(h, items[0]) {
        assert Heard(h, items) == [items[0].decoded.value.event];
      }
      EndsLater(h, items);
    }
  }

  lemma EndsLater(h: Handle, items: seq<Item>)
    requires items != []
    ensures (exists i: nat :: ConcludesAt(h, items, i))
            <==> ConcludesAt(h, items, 0) || exists i: nat :: ConcludesAt(h, items[1..], i)
  {
    assert forall i: nat :: i > 0 ==> (ConcludesAt(h, items, i) <==> ConcludesAt(h, items[1..], i - 1));
    assert forall i: nat :: ConcludesAt(h, items[1..], i) <==> ConcludesAt(h, items, i + 1);
  }

  // ---- Driver.Poll ------------------------------------------------------------------

  datatype PollOut = PollOut(items: seq<Item>, nextOffset: nat, closed: bool)

  datatype PollResult = PollResult(events: seq<OutEvent>, handle: Option<Handle>, done: bool)

  /** What a poll has collected when it has looked at the first `i` items. */
  ghost predicate Collected(h: Handle, items: seq<Item>, i: nat, events: seq<OutEvent>)
    requires i <= |items|
  {
    OnePass(h, items) == Pass(events + OnePass(h, items[i..]).events, OnePass(h, items[i..]).final)
  }

  /** An item that is filtered out adds nothing to the pass. */
  lemma PassSkips(h: Handle, items: seq<Item>, i: nat, events: seq<OutEvent>)
    requires i < |items| && !Kept(h, items[i]) && Collected(h, items, i, events)
    ensures Collected(h, items, i + 1, events)
  {
    assert items[i..][0] == items[i] && items[i..][1..] == items[i + 1..];
  }

  /** A kept item adds its output, and ends the pass if it is final. */
  lemma PassTakes(h: Handle, items: seq<Item>, i: nat, events: seq<OutEvent>, out: seq<OutEvent>, final: bool)
    requires i < |items| && Output(h, items[i]) == out && Final(h, items[i]) == final && Collected(h, items, i, events)
    ensures final ==> OnePass(h, items) == Pass(events + out, true)
    ensures !final ==> Collected(h, items, i + 1, events + out)
  {
    assert items[i..][0] == items[i] && items[i..][1..] == items[i + 1..];
    Regroup(events, out, OnePass(h, items[i + 1..]).events);
  }

  lemma OutputIs(h: Handle, i: Item, ev: Option<OutEvent>, final: bool)
    requires Kept(h, i) && (ev, final) == Translate(i.decoded.value.event, h.MessageScoped())
    ensures Output(h, i) == (if ev.Some? then [ev.value] else []) && Final(h, i) == final
  {
  }

  method Poll(h: Handle, pollOut: PollOut) returns (r: PollResult)
    ensures pollOut.closed ==> r == PollResult([], None, true)
    ensures !pollOut.closed ==>
              var pass := OnePass(h, pollOut.items);
              r == if pass.final then PollResult(pass.events, None, true)
                   else PollResult(pass.events, Some(h.(cursor := pollOut.nextOffset)), false)
    ensures !pollOut.closed ==>
              && Relays(r.events, Shown(Heard(h, pollOut.items)))
              && (r.done <==> exists i: nat :: ConcludesAt(h, pollOut.items, i))
  {
    PassRelays(h, pollOut.items);
    if pollOut.closed {
      return PollResult([], None, true);
    }
    var messageScoped := h.messageId.Some?;
    var events: seq<OutEvent> := [];
    var i := 0;
    while i < |pollOut.items|
      invariant 0 <= i <= |pollOut.items|
      invariant Collected(h, pollOut.items, i, events)
    {
      var item := pollOut.items[i];
      i := i + 1;
      if !item.turnEvents {
        PassSkips(h, pollOut.items, i - 1, events);
        continue;
      }
      if item.decoded.None? {
        PassSkips(h, pollOut.items, i - 1, events);
        continue;
      }
      var si := item.decoded.value;
      if messageScoped {
        if si.messageId.Some? && si.messageId != h.messageId {
          PassSkips(h, pollOut.items, i - 1, events);
          continue;
        }
      } else if si.turnNumber != h.turnNumber {
        PassSkips(h, pollOut.items, i - 1, events);
        continue;
      }
      var (ev, final) := Translate(si.event, messageScoped);
      OutputIs(h, item, ev, final);
      PassTakes(h, pollOut.items, i - 1, events, if ev.Some? then [ev.value] else [], final);
      Regroup(events, [], []);
      if ev.Some? {
        events := events + [ev.value];
      }
      if final {
        return PollResult(events, None, true);
      }
    }
    assert pollOut.items[i..] == [];
    return PollResult(events, Some(h.(cursor := pollOut.nextOffset)), false);
  }

  /** Reading on from `j` to `k` after `i..j`. */
  lemma Extend(h: Handle, stream: seq<Item>, i: nat, j: nat, k: nat)
    requires i <= j <= k <= |stream|
    ensures OnePass(h, stream[i..k]) ==
            if OnePass(h, stream[i..j]).final then OnePass(h, stream[i..j])
            else Pass(OnePass(h, stream[i..j]).events + OnePass(h, stream[j..k]).events, OnePass(h, stream[j..k]).final)
    ensures stream[i..|stream|] == stream[i..]
  {
    PassSplits(h, stream[i..j], stream[j..k]);
    assert stream[i..j] + stream[j..k] == stream[i..k];
  }

  /** What has been passed on when the stream was read up to `end`. */
  ghost predicate PassedOn(h: Handle, stream: seq<Item>, first: seq<OutEvent>, passed: seq<OutEvent>, end: nat, final: bool) {
    && h.cursor <= end <= |stream|
    && passed == first + OnePass(h, stream[h.cursor..end]).events
    && final == OnePass(h, stream[h.cursor..end]).final
  }

  lemma PassesOnMore(h: Handle, stream: seq<Item>, first: seq<OutEvent>, passed: seq<OutEvent>, i: nat, j: nat)
    requires PassedOn(h, stream, first, passed, i, false) && i <= j <= |stream|
    ensures var pass := OnePass(h.(cursor := i), stream[i..j]);
            PassedOn(h, stream, first, passed + pass.events, j, pass.final)
  {
    PassIgnoresCursor(h, i, stream[i..j]);
    var a, b := OnePass(h, stream[h.cursor..i]), OnePass(h, stream[i..j]);
    ExtendOpen(h, stream, h.cursor, i, j, a, b);
    Regroup(first, a.events, b.events);
  }

  lemma ExtendOpen(h: Handle, stream: seq<Item>, i: nat, j: nat, k: nat, a: Pass, b: Pass)
    requires i <= j <= k <= |stream| && a == OnePass(h, stream[i..j]) && b == OnePass(h, stream[j..k]) && !a.final
    ensures OnePass(h, stream[i..k]) == Pass(a.events + b.events, b.final)
  {
    Extend(h, stream, i, j, k);
  }

  /** In terms of what was published. */
  lemma PassedOnRelays(h: Handle, stream: seq<Item>, first: seq<OutEvent>, passed: seq<OutEvent>, end: nat, final: bool)
    requires PassedOn(h, stream, first, passed, end, final)
    ensures first <= passed && Relays(passed[|first|..], Shown(Heard(h, stream[h.cursor..end])))
    ensures final <==> exists i: nat :: ConcludesAt(h, stream[h.cursor..end], i)
  {
    PassRelays(h, stream[h.cursor..end]);
    assert passed[|first|..] == OnePass(h, stream[h.cursor..end]).events;
  }

  lemma FinalPass(h: Handle, stream: seq<Item>, first: seq<OutEvent>, passed: seq<OutEvent>, end: nat)
    requires PassedOn(h, stream, first, passed, end, true)
    ensures passed == first + OnePass(h, stream[h.cursor..]).events
  {
    Extend(h, stream, h.cursor, end, |stream|);
  }

  // ---- RouterWorkflow.Run -------------------------------------------------------------

  datatype StartResult = Started(events: seq<OutEvent>, handle: Option<Handle>) | StartFailed(message: string)

  datatype PollReply = Answer(out: PollOut) | PollFailed

  /** The service at its `n`-th call, asked from cursor `c`: it fails, says the session is
      closed, or returns any stretch of the stream that begins at `c`. */
  ghost predicate Serves(service: (nat, nat) -> PollReply, stream: seq<Item>) {
    forall n: nat, c: nat :: c <= |stream| ==> Stretch(service(n, c), stream, c)
  }

  predicate Stretch(a: PollReply, stream: seq<Item>, c: nat)
    requires c <= |stream|
  {
    a.Answer? && !a.out.closed ==> c <= a.out.nextOffset <= |stream| && a.out.items == stream[c..a.out.nextOffset]
  }

  /** `Final`: the reply ended; `Stopped`: a failed poll, a closed session, no handle, or the
      `calls` polls observed are used up. */
  datatype Ending = ReplyFinal | Stopped

  /** The start, poll, deliver loop. Whatever the service cuts the stream into, the events
      passed to the outbound are the start's events followed by one pass over the stream
      from the starting cursor to some offset; if the reply became final, they are one pass
      over the whole stream. */
  method Run(start: StartResult, service: (nat, nat) -> PollReply, calls: nat, stream: seq<Item>)
    returns (passed: seq<OutEvent>, ending: Ending, end: nat)
    requires Serves(service, stream)
    requires start.Started? && start.handle.Some? ==> start.handle.value.cursor <= |stream|
    ensures start.StartFailed? ==> passed == [Error(start.message)] && ending == Stopped
    ensures start.Started? && start.handle.None? ==> passed == start.events && ending == Stopped
    ensures start.Started? && start.handle.Some? ==>
              var h := start.handle.value;
              && h.cursor <= end <= |stream|
              && passed == start.events + OnePass(h, stream[h.cursor..end]).events
              && (ending.ReplyFinal? <==> OnePass(h, stream[h.cursor..end]).final)
              && (ending.ReplyFinal? ==> passed == start.events + OnePass(h, stream[h.cursor..]).events)
    ensures start.Started? && start.handle.Some? ==>
              var h := start.handle.value;
              && start.events <= passed && h.cursor <= end <= |stream|
              && Relays(passed[|start.events|..], Shown(Heard(h, stream[h.cursor..end])))
              && (ending.ReplyFinal? <==> exists i: nat :: ConcludesAt(h, stream[h.cursor..end], i))
  {
    if start.StartFailed? {
      return [Error(start.message)], Stopped, 0;
    }
    passed := start.events;
    if start.handle.None? {
      return passed, Stopped, 0;
    }
    var handle := start.handle.value;
    ghost var h := handle;
    end := handle.cursor;
    var n := 0;
    assert stream[h.cursor..end] == [];
    while n < calls
      invariant handle == h.(cursor := end)
      invariant PassedOn(h, stream, start.events, passed, end, false)
    {
      var reply := service(n, handle.cursor);
      assert Stretch(reply, stream, end);
      n := n + 1;
      if reply.PollFailed? {
        PassedOnRelays(h, stream, start.events, passed, end, false);
        return passed, Stopped, end;
      }
      var res := Poll(handle, reply.out);
      if reply.out.closed {
        PassedOnRelays(h, stream, start.events, passed, end, false);
        return passed + res.events, Stopped, end;
      }
      PassesOnMore(h, stream, start.events, passed, end, reply.out.nextOffset);
      passed := passed + res.events;
      end := reply.out.nextOffset;
      if res.done {
        FinalPass(h, stream, start.events, passed, end);
        PassedOnRelays(h, stream, start.events, passed, end, true);
        return passed, ReplyFinal, end;
      }
      handle := res.handle.value;
    }
    PassedOnRelays(h, stream, start.events, passed, end, false);
    ending := Stopped;
  }

  // ---- Over an agent's own log -----------------------------------------------------------

  function Lift(log: seq<Envelope>): (items: seq<Item>)
    ensures |items| == |log| && forall i :: 0 <= i < |log| ==> items[i] == Item(true, Some(log[i]))
  {
    seq(|log|, i requires 0 <= i < |log| => Item(true, Some(log[i])))
  }

  /** In a grammatical log the only event that ends a message-scoped reply is that message's own
      terminal: never `turn_end`, never a sibling's. */
  lemma FinalIffOwnTerminal(log: seq<Envelope>, h: Handle, i: nat)
    requires Grammatical(log) && h.MessageScoped() && i < |log|
    ensures Final(h, Lift(log)[i]) <==> Terminates(log, i, h.messageId.value)
  {
    AtSteps(log, i);
  }

  lemma {:induction false} NoFinalNoEnd(h: Handle, items: seq<Item>)
    requires forall i :: 0 <= i < |items| ==> !Final(h, items[i])
    ensures !OnePass(h, items).final
    decreases |items|
  {
    if items != [] {
      NoFinalNoEnd(h, items[1..]);
    }
  }

  /** A message-scoped reply over a grammatical log ends exactly at its own message's terminal,
      and the last event delivered is that terminal's, wherever the reading began before it. */
  lemma EndsAtOwnTerminal(log: seq<Envelope>, h: Handle, t: nat)
    requires Grammatical(log) && h.MessageScoped() && h.cursor <= t && Terminates(log, t, h.messageId.value)
    ensures !OnePass(h, Lift(log)[h.cursor..t]).final
    ensures var before := OnePass(h, Lift(log)[h.cursor..t]).events;
            OnePass(h, Lift(log)[h.cursor..])
            == Pass(before + [if log[t].event.MessageHandlerEnd? then HandlerOutput(log[t].event.output)
                              else Error("The agent's handler failed: " + log[t].event.message)], true)
  {
    var items := Lift(log);
    var m := h.messageId.value;
    var a, b := MessageLife(log, t, m);
    forall i | 0 <= i < |items[h.cursor..t]|
      ensures !Final(h, items[h.cursor..t][i])
    {
      FinalIffOwnTerminal(log, h, h.cursor + i);
    }
    NoFinalNoEnd(h, items[h.cursor..t]);
    FinalIffOwnTerminal(log, h, t);
    assert items[h.cursor..] == items[h.cursor..t] + items[t..];
    PassSplits(h, items[h.cursor..t], items[t..]);
    assert items[t..][0] == items[t];
  }

  /** A turn-scoped reply ends exactly at the `turn_end` of its own number. */
  lemma FinalIffTurnEnd(log: seq<Envelope>, h: Handle, i: nat)
    requires Grammatical(log) && !h.MessageScoped() && i < |log|
    ensures Final(h, Lift(log)[i]) <==> Ends(log, i) && log[i].turnNumber == h.turnNumber
  {
  }
}
