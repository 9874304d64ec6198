/** The parent's in-workflow half of one subagent: the entry whose tickets form the FIFO gate,
    and the steps of a call around its activity, each proved to be the matching step of
    SubagentDriver. */
module SubagentRunner {
  import opened Protocol
  import T = TurnMachine
  import opened TurnConsumer
  import opened SubagentDriver

  class SubagentInstance {
    var lastConsumedOffset: nat
    var nextTicket: nat
    var servingTicket: nat

    constructor ()
      ensures lastConsumedOffset == 0 && nextTicket == 0 && servingTicket == 0
    {
      lastConsumedOffset, nextTicket, servingTicket := 0, 0, 0;
    }

    method TakeTicket() returns (ticket: nat)
      modifies this`nextTicket
      ensures ticket == old(nextTicket) && nextTicket == ticket + 1
    {
      ticket := nextTicket;
      nextTicket := nextTicket + 1;
    }

    predicate IsServing(ticket: nat)
      reads this
    {
      servingTicket == ticket
    }

    method ReleaseGate()
      modifies this`servingTicket
      ensures servingTicket == old(servingTicket) + 1
    {
      servingTicket := servingTicket + 1;
    }
  }

  /** What a call does once its wait at the gate is over. */
  datatype Passed = ParentClosed | NoOpenTurn | Dispatch(fromOffset: nat)

  class SubagentCaller {
    const inst: SubagentInstance
    var closed: bool
    var markers: seq<Marker>

    constructor (child: T.State)
      ensures Shows(SubagentDriver.Start(child)) && fresh(inst)
    {
      inst := new SubagentInstance();
      closed, markers := false, [];
    }

    /** The fields are what the driver's state says: the tickets handed out are the calls made,
        and each ticket is its call's place in them. */
    ghost predicate Shows(s: State)
      reads this, inst
    {
      && inst.nextTicket == |s.calls|
      && inst.servingTicket == s.serving
      && inst.lastConsumedOffset == s.lastConsumed
      && closed == s.closed
      && markers == s.markers
    }

    method BeginTurn(ghost cfg: T.Config, ghost s: State, message: Message) returns (ticket: nat)
      requires Shows(s)
      modifies inst
      ensures Shows(Apply(cfg, s, Step.Call(message))) && ticket == |s.calls|
      ensures Apply(cfg, s, Step.Call(message)).calls[ticket] == Queued(message)
    {
      ticket := inst.TakeTicket();
    }

    /** The wait's condition held; the guard is read again. A call that gives up holds no gate
        and releases none. */
    method PassTheGate(ghost cfg: T.Config, ghost s: State, ticket: nat, turnOpen: bool) returns (r: Passed)
      requires Shows(s) && Enabled(cfg, s, PassGate(ticket, turnOpen))
      modifies inst
      ensures Shows(Apply(cfg, s, PassGate(ticket, turnOpen)))
      ensures var c := Apply(cfg, s, PassGate(ticket, turnOpen)).calls[ticket];
              match r
              case ParentClosed => c == GaveUp
              case NoOpenTurn => c == Done(NoActiveTurn)
              case Dispatch(from) => c.Holding? && c.from == from
    {
      if !inst.IsServing(ticket) {
        return ParentClosed;
      }
      if !turnOpen {
        inst.ReleaseGate();
        return NoOpenTurn;
      }
      r := Dispatch(inst.lastConsumedOffset);
    }

    /** Publishes on the turn that is open here, or raises. */
    method Publish(m: Marker, turnOpen: bool) returns (published: bool)
      modifies this`markers
      ensures published == turnOpen
      ensures markers == if turnOpen then old(markers) + [m] else old(markers)
    {
      if turnOpen {
        markers := markers + [m];
      }
      published := turnOpen;
    }

    /** The activity is over after the child accepted the turn: what an answer consumed is kept,
        and the bracket on this agent's stream is closed before the next ticket is served. With
        no turn open here the publish raises: the bracket stays open, the caller gets that
        error and no reply, and the gate passes all the same. */
    method CloseTurn(ghost cfg: T.Config, ghost s: State, ticket: nat, turnOpen: bool, result: TurnResult,
                     turnNumber: nat, consumedOffset: nat)
      returns (told: Option<TurnResult>)
      requires Shows(s) && Enabled(cfg, s, Deliver(ticket, turnOpen))
      requires var a := s.calls[ticket].attempt;
               result == ResultOf(a.consumed) && turnNumber == a.p.turnNumber && consumedOffset == a.p.offset
      modifies this, inst
      ensures Shows(Apply(cfg, s, Deliver(ticket, turnOpen)))
      ensures Apply(cfg, s, Deliver(ticket, turnOpen)).calls[ticket]
              == Done(if told.Some? then Turn(told.value) else Unclosed)
    {
      var published: bool;
      if result.Answered? {
        inst.lastConsumedOffset := consumedOffset;
        published := Publish(ReplyReceived(turnNumber, true), turnOpen);
      } else {
        published := Publish(ReplyReceived(turnNumber, false), turnOpen);
      }
      inst.ReleaseGate();
      told := if published then Some(result) else None;
    }

    /** The activity failed with no application error, or the call was cancelled while it ran:
        whatever it opened stays open, and the gate passes all the same. */
    method CloseOtherwise(ghost s: State, ticket: nat)
      requires Shows(s) && ticket < |s.calls| && s.calls[ticket].Holding?
      modifies inst
      ensures Shows(FailStep(s, ticket))
    {
      inst.ReleaseGate();
    }

    /** The send was rejected, or the child is gone: nothing was opened, so nothing is closed. */
    method CloseRejected(ghost cfg: T.Config, ghost s: State, ticket: nat)
      requires Shows(s) && Enabled(cfg, s, Submit(ticket))
      requires SubmitStep(cfg, s, ticket).calls[ticket].Done?
      modifies inst
      ensures Shows(Apply(cfg, s, Submit(ticket)))
    {
      inst.ReleaseGate();
    }
  }
}
