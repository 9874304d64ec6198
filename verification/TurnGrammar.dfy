/** The grammar of an agent's event log, as a deterministic acceptor that reads one envelope
    at a time. It says nothing about the runner's variables: TurnMachine proves that every
    run writes an accepted log, and the consumers (TurnConsumer, SubagentDriver, Router)
    prove what reading an accepted log gives them. */
module TurnGrammar {
  import opened Protocol

  datatype Phase = Waiting | Running | Finished

  /** What the log has said so far about one accepted message. */
  datatype Record = Record(turnId: Uuid, turnNumber: nat, joined: bool, phase: Phase)

  /** `slots[i]` is the turn id reserved for turn number i+1; `turns` counts the turns started. */
  datatype Reading = Reading(
    slots: seq<Uuid>,
    turns: nat,
    open: Option<Uuid>,
    messages: map<Uuid, Record>,
    closed: bool)

  const START := Reading([], 0, None, map[], false)

  /** Moves message `e.messageId` from `from` to `to`; its turn must be the open one. */
  function Advance(g: Reading, e: Envelope, from: Phase, to: Phase): Option<Reading> {
    if e.messageId.Some? && e.messageId.value in g.messages then
      var r := g.messages[e.messageId.value];
      if r.phase == from && g.open == Some(r.turnId) && e.turnId == g.open && e.turnNumber == r.turnNumber
      then Some(g.(messages := g.messages[e.messageId.value := r.(phase := to)]))
      else None
    else None
  }

  predicate AllFinished(g: Reading, turnId: Uuid) {
    forall m <- g.messages :: g.messages[m].turnId == turnId ==> g.messages[m].phase == Finished
  }

  /** Reads one envelope; `None` when the grammar forbids it here. */
  function Accept(g: Reading, e: Envelope): Option<Reading> {
    if IsTurnEvent(e.event) && g.closed then None
    else
      match e.event
      case MessageAccepted(_, _, d) =>
        if e.messageId.None? || e.turnId.None? || e.messageId.value in g.messages then None
        else
          var r := Record(e.turnId.value, e.turnNumber, d.JOINED?, Waiting);
          var messages := g.messages[e.messageId.value := r];
          if d.JOINED? then
            if g.open == e.turnId && e.turnNumber == g.turns then Some(g.(messages := messages)) else None
          else if e.turnNumber == |g.slots| + 1 && e.turnId.value !in g.slots
                  && (d.OPENED? <==> g.open.None? && |g.slots| == g.turns) then
            Some(g.(messages := messages, slots := g.slots + [e.turnId.value]))
          else None
      case TurnStarted =>
        if e.messageId.None? && g.open.None? && g.turns < |g.slots|
           && e.turnId == Some(g.slots[g.turns]) && e.turnNumber == g.turns + 1 then
          Some(g.(open := e.turnId, turns := g.turns + 1))
        else None
      case TurnEnded =>
        if e.messageId.None? && g.open.Some? && e.turnId == g.open && e.turnNumber == g.turns
           && AllFinished(g, g.open.value) then
          Some(g.(open := None))
        else None
      case MessageHandlerStart => Advance(g, e, Waiting, Running)
      case MessageHandlerEnd(_) => Advance(g, e, Running, Finished)
      case MessageHandlerError(_) => Advance(g, e, Running, Finished)
      case AgentClosed(_) =>
        if g.open.None? && e == Envelope(None, 0, None, e.event) then Some(g.(closed := true)) else None
      case _ => Some(g)
  }

  /** The acceptor's state after the whole log, `None` if the log is not grammatical. */
  function Scan(log: seq<Envelope>): Option<Reading> {
    if |log| == 0 then Some(START)
    else
      var before := Scan(log[..|log| - 1]);
      if before.None? then None else Accept(before.value, log[|log| - 1])
  }

  predicate Grammatical(log: seq<Envelope>) {
    Scan(log).Some?
  }

  /** The acceptor's state just before position `i` of a grammatical log. */
  function At(log: seq<Envelope>, i: nat): Reading
    requires Grammatical(log) && i <= |log|
  {
    PrefixIsGrammatical(log, i);
    Scan(log[..i]).value
  }

  lemma ScanAppend(log: seq<Envelope>, e: Envelope)
    ensures Scan(log + [e]) == if Scan(log).None? then None else Accept(Scan(log).value, e)
  {
    assert (log + [e])[..|log|] == log;
  }

  lemma {:induction false} PrefixIsGrammatical(log: seq<Envelope>, i: nat)
    requires Grammatical(log) && i <= |log|
    ensures Grammatical(log[..i])
    decreases |log|
  {
    if i == |log| {
      assert log[..i] == log;
    } else {
      PrefixIsGrammatical(log[..|log| - 1], i);
      assert log[..|log| - 1][..i] == log[..i];
    }
  }

  lemma AtSteps(log: seq<Envelope>, i: nat)
    requires Grammatical(log) && i < |log|
    ensures Accept(At(log, i), log[i]) == Some(At(log, i + 1))
  {
    PrefixIsGrammatical(log, i + 1);
    PrefixIsGrammatical(log, i);
    assert log[..i + 1][..i] == log[..i];
  }

  lemma AtOfPrefix(log: seq<Envelope>, n: nat, i: nat)
    requires Grammatical(log) && i <= n <= |log|
    ensures Grammatical(log[..n]) && At(log[..n], i) == At(log, i)
  {
    PrefixIsGrammatical(log, n);
    assert log[..n][..i] == log[..i];
  }

  // ---- What every reading of a grammatical log satisfies -------------------

  ghost predicate Sound(g: Reading) {
    && g.turns <= |g.slots|
    && (forall i, j :: 0 <= i < j < |g.slots| ==> g.slots[i] != g.slots[j])
    && (g.open.Some? ==> 0 < g.turns && g.open.value == g.slots[g.turns - 1])
    && (g.closed ==> g.open.None?)
    && (forall m <- g.messages :: SoundRecord(g, g.messages[m]))
  }

  ghost predicate SoundRecord(g: Reading, r: Record) {
    && 1 <= r.turnNumber <= |g.slots|
    && r.turnId == g.slots[r.turnNumber - 1]
    && (r.turnNumber > g.turns ==> r.phase == Waiting && !r.joined)
    && (r.turnNumber < g.turns || (r.turnNumber == g.turns && g.open.None?) ==> r.phase == Finished)
  }

  lemma AcceptKeepsSound(g: Reading, e: Envelope)
    requires Sound(g) && Accept(g, e).Some?
    ensures Sound(Accept(g, e).value)
  {
    match e.event
    case MessageAccepted(_, _, _) => AcceptanceKeepsSound(g, e);
    case TurnStarted => StartKeepsSound(g, e);
    case TurnEnded => EndKeepsSound(g);
    case MessageHandlerStart => AdvanceKeepsSound(g, e, Waiting, Running);
    case MessageHandlerEnd(_) => AdvanceKeepsSound(g, e, Running, Finished);
    case MessageHandlerError(_) => AdvanceKeepsSound(g, e, Running, Finished);
    case AgentClosed(_) => CloseKeepsSound(g);
    case _ =>
  }

  lemma AcceptanceKeepsSound(g: Reading, e: Envelope)
    requires Sound(g) && e.event.MessageAccepted? && Accept(g, e).Some?
    ensures Sound(Accept(g, e).value)
  {
    var g' := Accept(g, e).value;
    assert forall m <- g.messages :: SoundRecord(g', g.messages[m]);
  }

  lemma StartKeepsSound(g: Reading, e: Envelope)
    requires Sound(g) && e.event.TurnStarted? && Accept(g, e).Some?
    ensures Sound(Accept(g, e).value)
  {
    assert forall m <- g.messages :: SoundRecord(g, g.messages[m]);
  }

  lemma AdvanceKeepsSound(g: Reading, e: Envelope, from: Phase, to: Phase)
    requires Sound(g) && Advance(g, e, from, to).Some? && (to == Running || to == Finished) && from != Finished
    ensures Sound(Advance(g, e, from, to).value)
  {
    var g' := Advance(g, e, from, to).value;
    assert SoundRecord(g, g.messages[e.messageId.value]);
    assert forall m <- g.messages :: SoundRecord(g', g.messages[m]);
  }

  lemma CloseKeepsSound(g: Reading)
    requires Sound(g) && g.open.None?
    ensures Sound(g.(closed := true))
  {
    var g' := g.(closed := true);
    assert forall m <- g.messages :: SoundRecord(g', g.messages[m]);
  }

  lemma EndKeepsSound(g: Reading)
    requires Sound(g) && g.open.Some? && AllFinished(g, g.open.value)
    ensures Sound(g.(open := None))
  {
    var g' := g.(open := None);
    forall m | m in g.messages
      ensures SoundRecord(g', g.messages[m])
    {
      assert SoundRecord(g, g.messages[m]);
    }
  }

  lemma {:induction false} ScanIsSound(log: seq<Envelope>)
    requires Grammatical(log)
    ensures Sound(Scan(log).value)
  {
    if |log| > 0 {
      ScanIsSound(log[..|log| - 1]);
      AcceptKeepsSound(Scan(log[..|log| - 1]).value, log[|log| - 1]);
    }
  }

  // ---- Nothing read is ever forgotten --------------------------------------

  predicate PhaseLeq(p: Phase, q: Phase) {
    p == Waiting || (p == Running && q != Waiting) || q == Finished
  }

  ghost predicate Later(g: Reading, h: Reading) {
    && g.slots <= h.slots
    && g.turns <= h.turns
    && (g.turns == h.turns && g.open.None? ==> h.open.None?)
    && (g.closed ==> h.closed && h.messages == g.messages && h.turns == g.turns)
    && (forall m <- g.messages ::
          m in h.messages
          && h.messages[m].(phase := Waiting) == g.messages[m].(phase := Waiting)
          && PhaseLeq(g.messages[m].phase, h.messages[m].phase))
  }

  lemma {:induction false} ReadingGrows(log: seq<Envelope>, i: nat, j: nat)
    requires Grammatical(log) && i <= j <= |log|
    ensures Later(At(log, i), At(log, j))
    decreases j
  {
    if i < j {
      ReadingGrows(log, i, j - 1);
      AtSteps(log, j - 1);
      AcceptGrows(At(log, j - 1), log[j - 1]);
      LaterStill(At(log, i), At(log, j - 1), At(log, j));
    }
  }

  lemma AcceptGrows(g: Reading, e: Envelope)
    requires Accept(g, e).Some?
    ensures Later(g, Accept(g, e).value)
  {
  }

  lemma LaterStill(f: Reading, g: Reading, h: Reading)
    requires Later(f, g) && Later(g, h)
    ensures Later(f, h)
  {
  }

  lemma AtIsSound(log: seq<Envelope>, i: nat)
    requires Grammatical(log) && i <= |log|
    ensures Sound(At(log, i))
  {
    PrefixIsGrammatical(log, i);
    ScanIsSound(log[..i]);
  }

  // ---- Numbering: the turns of a log are 1, 2, 3, ... and never overlap ----

  /** Position `i` opens a turn. */
  predicate Opens(log: seq<Envelope>, i: nat) {
    i < |log| && log[i].event.TurnStarted?
  }

  predicate Ends(log: seq<Envelope>, i: nat) {
    i < |log| && log[i].event.TurnEnded?
  }

  /** Turn brackets never nest or interleave: between two `turn_started` there is the first
      one's `turn_end`, which carries the same id and number, and the second number is larger
      (by exactly one when nothing opens in between). */
  lemma BracketsNeverNest(log: seq<Envelope>, i: nat, j: nat) returns (k: nat)
    requires Grammatical(log) && Opens(log, i) && Opens(log, j) && i < j
    ensures i < k < j && Ends(log, k)
    ensures log[k].turnId == log[i].turnId && log[k].turnNumber == log[i].turnNumber
    ensures log[j].turnNumber > log[i].turnNumber && log[j].turnId != log[i].turnId
    ensures (forall x :: i < x < j ==> !Opens(log, x)) ==> log[j].turnNumber == log[i].turnNumber + 1
  {
    AtSteps(log, i);
    AtSteps(log, j);
    k := EndBetween(log, i + 1, j);
    ReadingGrows(log, i + 1, j);
    AtIsSound(log, j);
    if forall x :: i < x < j ==> !Opens(log, x) {
      NoOpeningNoNumber(log, i + 1, j);
    }
  }

  /** A turn open at `i` and no longer open at `n` was closed in between by its own `turn_end`. */
  lemma {:induction false} EndBetween(log: seq<Envelope>, i: nat, n: nat) returns (k: nat)
    requires Grammatical(log) && i <= n <= |log| && At(log, i).open.Some? && At(log, n).open != At(log, i).open
    ensures i <= k < n && Ends(log, k)
    ensures log[k].turnId == At(log, i).open && log[k].turnNumber == At(log, i).turns
    decreases n - i
  {
    AtSteps(log, i);
    if Ends(log, i) {
      k := i;
    } else {
      k := EndBetween(log, i + 1, n);
    }
  }

  lemma {:induction false} NoOpeningNoNumber(log: seq<Envelope>, i: nat, j: nat)
    requires Grammatical(log) && i <= j <= |log|
    requires forall x :: i <= x < j ==> !Opens(log, x)
    ensures At(log, j).turns == At(log, i).turns
    decreases j - i
  {
    if i < j {
      NoOpeningNoNumber(log, i, j - 1);
      AtSteps(log, j - 1);
      assert !Opens(log, j - 1);
    }
  }

  // ---- Life of one message --------------------------------------------------

  predicate Accepts(log: seq<Envelope>, a: nat, m: Uuid) {
    a < |log| && log[a].event.MessageAccepted? && log[a].messageId == Some(m)
  }

  predicate Starts(log: seq<Envelope>, b: nat, m: Uuid) {
    b < |log| && log[b].event.MessageHandlerStart? && log[b].messageId == Some(m)
  }

  predicate Terminates(log: seq<Envelope>, t: nat, m: Uuid) {
    t < |log| && IsTerminal(log[t].event) && log[t].messageId == Some(m)
  }

  lemma {:induction false} AcceptedSince(log: seq<Envelope>, n: nat, m: Uuid) returns (a: nat)
    requires Grammatical(log) && n <= |log| && m in At(log, n).messages
    ensures a < n && Accepts(log, a, m) && m !in At(log, a).messages
    ensures log[a].turnId == Some(At(log, n).messages[m].turnId)
    ensures log[a].turnNumber == At(log, n).messages[m].turnNumber
    ensures log[a].event.disposition.JOINED? == At(log, n).messages[m].joined
  {
    AtSteps(log, n - 1);
    if m in At(log, n - 1).messages {
      a := AcceptedSince(log, n - 1, m);
    } else {
      a := n - 1;
    }
  }

  /** A phase once reached was reached by the matching event. */
  lemma {:induction false} StartedSince(log: seq<Envelope>, n: nat, m: Uuid) returns (b: nat)
    requires Grammatical(log) && n <= |log| && m in At(log, n).messages
    requires At(log, n).messages[m].phase != Waiting
    ensures b < n && Starts(log, b, m) && m in At(log, b).messages && At(log, b).messages[m].phase == Waiting
  {
    AtSteps(log, n - 1);
    if m in At(log, n - 1).messages && At(log, n - 1).messages[m].phase != Waiting {
      b := StartedSince(log, n - 1, m);
    } else {
      b := n - 1;
    }
  }

  lemma {:induction false} FinishedSince(log: seq<Envelope>, n: nat, m: Uuid) returns (t: nat)
    requires Grammatical(log) && n <= |log| && m in At(log, n).messages
    requires At(log, n).messages[m].phase == Finished
    ensures t < n && Terminates(log, t, m) && m in At(log, t).messages && At(log, t).messages[m].phase == Running
  {
    AtSteps(log, n - 1);
    if m in At(log, n - 1).messages && At(log, n - 1).messages[m].phase == Finished {
      t := FinishedSince(log, n - 1, m);
    } else {
      t := n - 1;
    }
  }

  /** A dispatched message shows accepted, then start, then its terminal, all under one turn
      id and number, and it shows exactly one of each. */
  lemma MessageLife(log: seq<Envelope>, t: nat, m: Uuid) returns (a: nat, b: nat)
    requires Grammatical(log) && Terminates(log, t, m)
    ensures a < b < t && Accepts(log, a, m) && Starts(log, b, m)
    ensures log[a].turnId == log[b].turnId == log[t].turnId
    ensures log[a].turnNumber == log[b].turnNumber == log[t].turnNumber
    ensures forall x :: Accepts(log, x, m) ==> x == a
    ensures forall x :: Starts(log, x, m) ==> x == b
    ensures forall x :: Terminates(log, x, m) ==> x == t
  {
    AtSteps(log, t);
    a := AcceptedSince(log, t, m);
    b := StartedSince(log, t, m);
    AtSteps(log, a);
    AtSteps(log, b);
    if b <= a {
      ReadingGrows(log, b, a);
    }
    ReadingGrows(log, a + 1, b);
    ReadingGrows(log, b + 1, t);
    forall x | Accepts(log, x, m) ensures x == a {
      EventsOfOneMessage(log, x, a, m);
    }
    forall x | Starts(log, x, m) ensures x == b {
      EventsOfOneMessage(log, x, b, m);
    }
    forall x | Terminates(log, x, m) ensures x == t {
      EventsOfOneMessage(log, x, t, m);
    }
  }

  lemma EventsOfOneMessage(log: seq<Envelope>, x: nat, y: nat, m: Uuid)
    requires Grammatical(log)
    requires (Accepts(log, x, m) && Accepts(log, y, m)) || (Starts(log, x, m) && Starts(log, y, m))
             || (Terminates(log, x, m) && Terminates(log, y, m))
    ensures x == y
  {
    AtSteps(log, x);
    AtSteps(log, y);
    if x < y {
      ReadingGrows(log, x + 1, y);
    } else if y < x {
      ReadingGrows(log, y + 1, x);
    }
  }

  /** `turn_end` is a true quiescence signal: every message accepted into that turn has its
      terminal before it. */
  lemma TerminalsPrecedeTurnEnd(log: seq<Envelope>, e: nat, a: nat, m: Uuid) returns (t: nat)
    requires Grammatical(log) && Ends(log, e) && Accepts(log, a, m) && log[a].turnId == log[e].turnId
    ensures a < t < e && Terminates(log, t, m)
  {
    AtSteps(log, e);
    AtSteps(log, a);
    if e <= a {
      TurnNeverReopens(log, e, a, log[e].turnId.value);
      assert false;
    }
    ReadingGrows(log, a + 1, e);
    t := FinishedSince(log, e, m);
    AtSteps(log, t);
    if t <= a {
      ReadingGrows(log, t, a);
    }
  }

  /** After its `turn_end` a turn id is never open again and no message is accepted under it. */
  lemma TurnNeverReopens(log: seq<Envelope>, e: nat, n: nat, turnId: Uuid)
    requires Grammatical(log) && Ends(log, e) && log[e].turnId == Some(turnId) && e < n <= |log|
    ensures At(log, n).open != Some(turnId) && turnId in At(log, n).slots
    ensures n < |log| && IsTurnEvent(log[n].event) ==> log[n].turnId != Some(turnId)
  {
    AtSteps(log, e);
    AtIsSound(log, e);
    ReadingGrows(log, e + 1, n);
    AtIsSound(log, n);
    var k := At(log, e).turns - 1;
    assert At(log, n).slots[k] == turnId;
    if n < |log| {
      AtSteps(log, n);
    }
  }

  // ---- The offset contract --------------------------------------------------

  /** A message that did not join sees its turn's `turn_started` strictly after its own
      `message_accepted`; a message that joined sees it strictly before, and never again. */
  lemma OffsetContract(log: seq<Envelope>, a: nat, m: Uuid)
    requires Grammatical(log) && Accepts(log, a, m)
    ensures log[a].turnId.Some?
    ensures !log[a].event.disposition.JOINED? ==>
              forall s: nat :: Opens(log, s) && log[s].turnId == log[a].turnId ==> a < s
    ensures log[a].event.disposition.JOINED? ==>
              && (exists s: nat :: s < a && Opens(log, s) && log[s].turnId == log[a].turnId)
              && (forall s: nat :: Opens(log, s) && log[s].turnId == log[a].turnId ==> s < a)
  {
    AtSteps(log, a);
    var g := At(log, a);
    AtIsSound(log, a);
    if log[a].event.disposition.JOINED? {
      var s := OpenedSince(log, a);
    }
    forall s: nat | Opens(log, s) && log[s].turnId == log[a].turnId
      ensures if log[a].event.disposition.JOINED? then s < a else a < s
    {
      AtSteps(log, s);
      if s < a {
        ReadingGrows(log, s + 1, a);
      } else if a < s {
        ReadingGrows(log, a + 1, s);
        AtIsSound(log, s);
      }
    }
  }

  lemma {:induction false} OpenedSince(log: seq<Envelope>, n: nat) returns (s: nat)
    requires Grammatical(log) && n <= |log| && At(log, n).open.Some?
    ensures s < n && Opens(log, s) && log[s].turnId == At(log, n).open
    ensures log[s].turnNumber == At(log, n).turns
  {
    AtSteps(log, n - 1);
    if At(log, n - 1).open.Some? {
      s := OpenedSince(log, n - 1);
    } else {
      s := n - 1;
    }
  }

  /** The number and id a non-joining sender is given are the ones its turn opens under, and
      messages that reserve a turn open in the order they were accepted. */
  lemma OpensAsPromised(log: seq<Envelope>, a: nat, m: Uuid, s: nat)
    requires Grammatical(log) && Accepts(log, a, m) && !log[a].event.disposition.JOINED? && Opens(log, s)
    ensures log[s].turnNumber == log[a].turnNumber <==> log[s].turnId == log[a].turnId
    ensures log[s].turnNumber == log[a].turnNumber ==> a < s
    ensures forall b: nat, n :: Accepts(log, b, n) && !log[b].event.disposition.JOINED? && a < b
                           ==> log[a].turnNumber < log[b].turnNumber
  {
    OffsetContract(log, a, m);
    var slots := At(log, |log|).slots;
    AtIsSound(log, |log|);
    SlotOfAccept(log, a, m);
    SlotOfOpen(log, s);
    forall b: nat, n | Accepts(log, b, n) && !log[b].event.disposition.JOINED? && a < b
      ensures log[a].turnNumber < log[b].turnNumber
    {
      AcceptOrder(log, a, m, b, n);
    }
  }

  lemma SlotOfAccept(log: seq<Envelope>, a: nat, m: Uuid)
    requires Grammatical(log) && Accepts(log, a, m) && !log[a].event.disposition.JOINED?
    ensures var slots := At(log, |log|).slots;
            0 < log[a].turnNumber <= |slots| && log[a].turnId == Some(slots[log[a].turnNumber - 1])
  {
    AtSteps(log, a);
    ReadingGrows(log, a + 1, |log|);
  }

  lemma SlotOfOpen(log: seq<Envelope>, s: nat)
    requires Grammatical(log) && Opens(log, s)
    ensures var slots := At(log, |log|).slots;
            0 < log[s].turnNumber <= |slots| && log[s].turnId == Some(slots[log[s].turnNumber - 1])
  {
    AtSteps(log, s);
    ReadingGrows(log, s + 1, |log|);
  }

  lemma AcceptOrder(log: seq<Envelope>, a: nat, m: Uuid, b: nat, n: Uuid)
    requires Grammatical(log) && Accepts(log, a, m) && Accepts(log, b, n) && a < b
    requires !log[a].event.disposition.JOINED? && !log[b].event.disposition.JOINED?
    ensures log[a].turnNumber < log[b].turnNumber
  {
    AtSteps(log, a);
    AtSteps(log, b);
    ReadingGrows(log, a + 1, b);
  }
}
