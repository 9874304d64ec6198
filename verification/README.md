# A model of the agent harness

The agent harness runs a conversational agent as a durable workflow. Its heart is a cooperative
concurrent protocol: an admission half (an update's validator and handler) and an execution half
(a run loop and the participant tasks it spawns) share a refcounted turn, a queue of messages, a
list of joins, a steering queue, an approval registry, a callback registry and one gate per
subagent, and everything is told on one append-only event stream that clients, parents and
connectors read.

This project states that protocol in Dafny and proves what it promises over whole runs.

## How it is modelled

A **step** is the code between two awaits. A run is any sequence of steps, and a step that is not
enabled changes nothing, so every theorem about `Exec` is about every interleaving. A wait whose
condition became true is resumed later: firing and resuming are two steps with anything in
between, and the resumed code reads its guards again.

| file | what it holds |
|---|---|
| `Protocol.dfy`, `Collections.dfy` | messages, admissions, events, envelopes; two facts about collections |
| `TurnGrammar.dfy` | the grammar of the event log, as an acceptor, and what any accepted log tells its readers |
| `TurnMachine.dfy` | admission, close, run loop, participants and steering as functions from state to state |
| `TurnSafety.dfy`, `TurnLog.dfy`, `TurnTheorems.dfy` | counting, agreement of variables and log, and the promises over runs |
| `TurnSteering.dfy` | the account of steering over every run: minted, taken, queued, and what the log shows |
| `TurnEffects.dfy` | what each step does with the messages, outcomes and texts it is given, and which step every event came from |
| `TurnFairness.dfy` | a measure that bounds the steps of loop and participants, and what every fair run comes to |
| `AgentRunner.dfy` | the two objects whose fields the protocol updates; each method is proved to be the machine's step |
| `AgentClient.dfy` | the client that sends one message and streams its turn |
| `TurnConsumer.dfy` | the parent's activity reading one child turn, its memo and its resumption |
| `SubagentDriver.dfy`, `SubagentTheorems.dfy`, `SubagentBrackets.dfy`, `SubagentEffects.dfy`, `SubagentRunner.dfy` | parent, activity and a whole child machine running together: gate, send-once, brackets, windows |
| `ApprovalMachine.dfy`, `ApprovalTheorems.dfy`, `ApprovalEffects.dfy`, `ApprovalRunner.dfy` | the tool-approval gate with evaluators, decisions, policy cascades and close racing |
| `Callbacks.dfy` | callback tools with client result, timeout and close racing |
| `Router.dfy` | the UI connector's poll-and-deliver loop |
| `SchemaClosure.dfy` | the `$ref` walk over cyclic definitions |
| `SteeringText.dfy` | the printed steering block |
| `AgentIds.dfy` | ids in a tree of agents |

The objects (`WorkflowStatus`, `AgentWorkflowRunner`, `TurnProgress`, `SubagentInstance`,
`SubagentCaller`, `ApprovalRegistry`, `CallbackRegistry`, `Collector`) are classes with the
source's fields. Their methods are proved equal to the machine's functions, so what is proved of
runs holds of the objects.

The approval, callback and turn machines each own part of the stream. In each of them the events of
everybody else, those an activity publishes included, are an environment step that appends any
envelope the machine does not own.

## What holds only under a condition

Some promises are not true of the code as it stands. For each of them the project proves exactly
when it holds.

- *Close drains.* A join still waiting when the loop sees the close is counted and never spawned,
  so the workflow never completes: `DrainCompletesIff`, with `StuckJoinIsReachable`.
- *The refcount counts participants, and work gets done.* A reply is turned into JSON outside the
  reach of both exception handlers. When that raises, the participant ends with no terminal and
  never leaves: its turn stays open, nothing queued opens and a close does not drain. The same
  holds of a participant whose task is cancelled before its coroutine begins. Either is a lost
  participant below: `EveryRunIsCounted`, `WorkCanFinishIff` and `DrainCompletesIff`, with
  `LostReplyIsReachable`.
- *A resumed attempt keeps its reply.* The memo holds an offset and no reply, so resuming past our
  own terminal loses it: `ResumeIff`. With a child that may end at any moment: `NoReplyIff`.
- *Subagent brackets never overlap.* A call that is cancelled, or fails with no application error,
  releases the gate and closes nothing. So does one whose reply arrives with no turn of the parent
  open: publishing the close marker raises, and the gate passes. And an attempt that was given up
  may still publish its marker. Which of these steps, followed by which marker, breaks the brackets
  is `BracketsIff`, with `OverlapIsReachable` and `UnclosedIsReachable`.
- *The gate serves every ticket.* A call cancelled while it waits never releases its ticket:
  `ServableIff`, with `CancelledTicketBlocks`.
- *A turn bracket always closes.* Not when its last participant is torn down: `TeardownAgreesIff`,
  `TeardownBreaksNextTurn`. Theorems about the grammar of the log are for runs without that
  step; counting and the account of steering hold with it.
- *Every evaluation closes, and every approval dispatches.* A gate whose own task is cancelled or
  torn down leaves as it is. So does one that looks at a malformed result after somebody else
  settled the call, or at a cancelled evaluator before. The evaluation stays open, and a decision
  for the call is published all the same: `ClosedIffNeverLeftOpen`, `DispatchedIff`, with
  `ApprovedAfterLeaving`; for callbacks `ReturnedIff`. A cancellation that arrives while the gate
  waits for its evaluator to unwind is swallowed there.
- *The log accounts for steering.* `steer` queues before it publishes, `claim_steering` empties the
  queue before it does, and either publish raises with no turn open: `SteeringConservation`,
  `LogAccountsIff`; for the queue between turns `SteerKeepsQuietQueueIff`.
- *Agent ids are tree-unique.* The reroll looks at registered handles, and a handle is registered
  only after the child has started: `MintIsSafeIff`, `TwoStartsShareAHandle`, `DistinctIff`.
- *The init-data schema is self-contained.* A recursive model keeps a reference to its own root,
  which is inlined and not carried: `SelfContainedIff`.
- *Tool ids are fresh.* A second registration of one id overwrites the first: `RegisterKeepsSettledIff`.

An `ok` close of a subagent bracket follows the child turn's end, or the end of the child
(`OverGives`). A comment at the error close says of it that the turn has ended; the code raises at
our own error event, which may precede the end of a turn that siblings share, so here only the `ok`
close carries that fact.

The interface's description says that an ACCEPT handler yields OPENED or JOINED. The code queues an
ACCEPT message when no turn is open and others wait (`AcceptCanQueue`, `Dispositions`); the model
follows the code.

## Model

| member | source | states |
|---|---|---|
| `TurnSafety.EveryRunIsCounted` | python/temporal_agent_harness/harness/agent_workflow.py:1596-1664 | In every state any interleaving reaches the turn id is set exactly while the refcount is positive, every counted participant carries the current turn's id and number, and the i-th queued message holds number current+i+1; the refcount is the waiting joins plus the spawned, unfinished participants if and only if no finished reply of the run failed to serialize and no participant's task was cancelled before it began |
| `TurnLog.EveryRunIsGrammatical` | python/temporal_agent_harness/harness/agent_workflow.py:2217-2226 | Every run without a torn-down participant writes a log of the turn grammar, and the runner's counters, queue, joins and tasks agree with what that log says |
| `TurnGrammar.BracketsNeverNest` | python/temporal_agent_harness/harness/agent_workflow.py:3050-3055 | Turn brackets never nest or interleave and are numbered consecutively |
| `TurnGrammar.MessageLife` | python/temporal_agent_harness/harness/agent_workflow.py:3141-3180 | A terminal is preceded by exactly one start and exactly one acceptance of its message, under one turn id and number, and is the only terminal |
| `TurnGrammar.TerminalsPrecedeTurnEnd` | python/temporal_agent_harness/harness/agent_workflow.py:3178-3191 | Every message accepted into a turn has its terminal before that turn's `turn_end` |
| `TurnGrammar.TurnNeverReopens` | python/temporal_agent_harness/harness/agent_workflow.py:1653-1664 | After its `turn_end` a turn id is never open again and no turn event is stamped with it |
| `TurnGrammar.OffsetContract` | python/temporal_agent_harness/harness/agent_workflow.py:2177-2234 | A message that did not join has its `turn_started` strictly after its `message_accepted`; one that joined has it strictly before, and never again |
| `TurnGrammar.OpensAsPromised` | python/temporal_agent_harness/harness/agent_workflow.py:1620-1640 | A reserved turn opens under exactly the number and id its sender was given, and reserved turns open in admission order |
| `TurnEffects.EveryEventHasItsStep` | python/temporal_agent_harness/harness/agent_workflow.py:2217-2234 | Every event of every run was published by a step that was given just what the event says: a terminal by the end of that message's handler with that outcome, an acceptance by the admission of that message, steering by the call with that text |
| `TurnEffects.FinishSays` | python/temporal_agent_harness/harness/agent_workflow.py:3155-3180 | What a handler's end publishes first is its own message's terminal under its own turn and number: `message_handler_end` with the output exactly if it replied with that, `message_handler_error` with the text exactly if it raised that |
| `TurnEffects.OutcomesAreTold` | python/temporal_agent_harness/harness/agent_workflow.py:3155-3180 | In every run each finished handler's terminal is on the log where it finished and says what it finished with |
| `TurnEffects.MessagesAreCarried` | python/temporal_agent_harness/harness/agent_workflow.py:2177-2234 | In every run whatever is queued, joining or running is the very message that was accepted on the stream under its id, turn and number |
| `TurnEffects.AdmissionIff` | python/temporal_agent_harness/harness/agent_workflow.py:2236-2286 | Which messages are admitted, and which of the four reasons each other one is refused for |
| `TurnEffects.AdmissionKeepsTheMessage` | python/temporal_agent_harness/harness/agent_workflow.py:2177-2234 | An admission writes down the message itself, to join or last in the queue, under fresh ids, announces it, and changes nothing else |
| `TurnEffects.LoopPasses` | python/temporal_agent_harness/harness/agent_workflow.py:3064-3123 | One pass over an open agent that its timeout does not close: every join is spawned, those who run stay, and the head of the queue opens a turn exactly if nobody is in one |
| `TurnEffects.IdleTimeoutCloses` | python/temporal_agent_harness/harness/agent_workflow.py:3097-3123 | The idle timeout closes the agent exactly if it is idle when the loop looks; the next wait runs its clock exactly while the agent is idle |
| `TurnEffects.WakesIff` | python/temporal_agent_harness/harness/agent_workflow.py:3086-3123 | When each of the loop's waits is over |
| `TurnEffects.SteerSays` | python/temporal_agent_harness/harness/agent_workflow.py:3571-3599 | Steering is queued last with its text and its message, and announced with the same text exactly when a turn is open |
| `TurnTheorems.Dispositions` | python/temporal_agent_harness/harness/agent_workflow.py:2185-2215 | Which disposition each handler mode gets in each state; a REJECT message is admitted only as OPENED with an empty queue |
| `TurnTheorems.AcceptCanQueue` | python/temporal_agent_harness/harness/agent_protocol/agent_interface.py:834-839 | An ACCEPT message can be QUEUED, which the interface's own description rules out |
| `TurnTheorems.StatusAgrees` | python/temporal_agent_harness/harness/agent_workflow.py:1929-1937 | The status query numbers each queued message as its sender was told |
| `TurnTheorems.ReplyOffset` | python/temporal_agent_harness/harness/agent_workflow.py:2177-2234 | `message_accepted` lies at the reply's offset in every continuation, and the turn's start can lie only on the side the disposition says |
| `TurnTheorems.ClosedForGood` | python/temporal_agent_harness/harness/agent_workflow.py:3023-3028 | The first close reason sticks; afterwards nothing is admitted and no turn opens |
| `TurnTheorems.IdleCloseLosesNothing` | python/temporal_agent_harness/harness/agent_workflow.py:3105-3123 | After an idle-timeout close every message ever accepted has its terminal and, after it, its turn's end |
| `TurnTheorems.ReturnedLosesOnlyQueued` | python/temporal_agent_harness/harness/agent_workflow.py:3064-3067 | When the loop has returned, a message is unfinished exactly if it was still queued |
| `TurnTheorems.DrainCompletesIff` | python/temporal_agent_harness/harness/agent_workflow.py:3086-3095 | The drain after a close can complete if and only if no join is waiting and no participant was lost |
| `TurnTheorems.StuckJoinIsReachable` | python/temporal_agent_harness/harness/agent_workflow.py:3064-3072 | A run that reaches a drain with a join still waiting |
| `TurnTheorems.WorkCanFinishIff` | python/temporal_agent_harness/harness/agent_workflow.py:3097-3191 | Everything queued, joining or running in an open agent can be finished, wherever its loop is parked, if and only if no participant was lost |
| `TurnTheorems.LostReplyIsReachable` | python/temporal_agent_harness/harness/agent_workflow.py:3173-3177 | A run in which a handler returns, its reply does not serialize, and the count stays up |
| `TurnTheorems.AcceptedCanFinish` | python/temporal_agent_harness/harness/agent_workflow.py:3064-3084 | While the agent is open and no participant was lost, every accepted message can still reach its terminal and its turn's end |
| `TurnFairness.RankFalls` | python/temporal_agent_harness/harness/agent_workflow.py:3064-3191 | A measure that every enabled step of the loop or of a participant lowers, and that only an admission or a close can raise |
| `TurnFairness.FairRunsFinish` | python/temporal_agent_harness/harness/agent_workflow.py:3064-3123 | After any run, any schedule without new work takes a bounded number of steps of loop and participants, and where none is left the agent has returned, or is idle, or holds somebody who never leaves |
| `TurnFairness.FairRunsAnswer` | python/temporal_agent_harness/harness/agent_workflow.py:3064-3191 | So under every fair schedule of an agent that nobody asks to close, with an idle timeout or without, every accepted message gets its terminal and its turn's end, unless a participant was lost or torn down |
| `TurnFairness.FairRunsReturn` | python/temporal_agent_harness/harness/agent_workflow.py:3097-3123 | An agent with an idle timeout that nobody asks to close comes to rest only by returning, closed by that timeout, unless a participant was lost |
| `TurnTheorems.OneAgentClosed` | python/temporal_agent_harness/harness/agent_workflow.py:3092-3095 | A returned loop published exactly one `agent_closed`, bearing the first close reason, and no turn event follows it, torn-down participants or not |
| `TurnTheorems.TeardownAgreesIff` | python/temporal_agent_harness/harness/agent_workflow.py:3162-3171 | After a participant is torn down the runner agrees with its log about the open turn if and only if somebody else is still in it |
| `TurnTheorems.TeardownBreaksNextTurn` | python/temporal_agent_harness/harness/agent_workflow.py:3162-3171 | When the last one out was torn down, the next turn opens inside a bracket that was never closed |
| `TurnSteering.SteeringConservation` | python/temporal_agent_harness/harness/agent_workflow.py:3571-3626 | In every run each id `steer` minted is taken from the queue at most once and in order, or still queued; the log announces exactly those not queued outside a turn and settles exactly those taken and not claimed outside one; between turns only what was queued there is queued, unless a participant was torn down |
| `TurnSteering.LogAccountsIff` | python/temporal_agent_harness/harness/agent_workflow.py:3594-3626 | In every run what the log settles, followed by the queue, is what the log announces if and only if the ids queued outside a turn are those claimed outside one |
| `AgentRunner.WorkflowStatus.ReserveTurnNumber` | python/temporal_agent_harness/harness/agent_workflow.py:1620-1625 | A reserved number is the current one plus the length of the queue plus one |
| `AgentRunner.WorkflowStatus.OpenNextTurn` | python/temporal_agent_harness/harness/agent_workflow.py:1631-1640 | The head of the queue leaves it and opens the next number under its own id with one participant |
| `AgentRunner.WorkflowStatus.JoinTurn` | python/temporal_agent_harness/harness/agent_workflow.py:1642-1651 | One more participant and the open turn's id and number, or an error and no change when no turn is open |
| `AgentRunner.WorkflowStatus.LeaveTurn` | python/temporal_agent_harness/harness/agent_workflow.py:1653-1664 | One participant fewer; the id is cleared, and the close reported, exactly at zero |
| `AgentRunner.AgentWorkflowRunner.ValidateSendAgentMessage` | python/temporal_agent_harness/harness/agent_workflow.py:2236-2286 | The validator's verdict, in its order of checks |
| `AgentRunner.AgentWorkflowRunner.HandleSendAgentMessage` | python/temporal_agent_harness/harness/agent_workflow.py:2154-2234 | An admission is the machine's admission step, its reply the machine's reply, and the invariant is kept |
| `AgentRunner.AgentWorkflowRunner.SpawnWaitingJoins` | python/temporal_agent_harness/harness/agent_workflow.py:3071-3072 | The loop over waiting joins spawns all of them, in order, and empties the list |
| `AgentRunner.AgentWorkflowRunner.ResumeRun` | python/temporal_agent_harness/harness/agent_workflow.py:3064-3095 | One resumption of the run loop, guards read again, is the machine's resume step and keeps the invariant |
| `AgentRunner.AgentWorkflowRunner.CompleteParticipant` | python/temporal_agent_harness/harness/agent_workflow.py:3155-3191 | The end of a participant from what its handler did: the reply's output in a `message_handler_end`, the exception's text in a `message_handler_error`, and its leave, closing the bracket if it is the last; or, when its reply does not serialize, neither. The invariant is kept |
| `AgentRunner.AgentWorkflowRunner.TearDownParticipant` | python/temporal_agent_harness/harness/agent_workflow.py:3162-3171 | A teardown drops the refcount, publishes nothing, and keeps the invariant |
| `AgentRunner.AgentWorkflowRunner.SteerWith` | python/temporal_agent_harness/harness/agent_workflow.py:3571-3599 | Queues, then publishes or raises |
| `AgentRunner.AgentWorkflowRunner.ClaimAll` | python/temporal_agent_harness/harness/agent_workflow.py:3601-3626 | Takes the whole queue oldest first and empties it, unless a tool call is in flight or it is empty |
| `AgentClient.MergedTurn` | python/temporal_agent_harness/harness/agent_client.py:493-540 | Skips to the turn's `turn_started`, emits every event up to its `turn_end`, with the caller's own error substituted |
| `AgentClient.SendMessage` | python/temporal_agent_harness/harness/agent_client.py:478-491 | Fails fast exactly for a joined message; otherwise emits, event by event as published but for the message's own error, exactly the turn's bracket once it is on the stream, and nothing while the turn has not started |
| `AgentClient.SkipMatchesIff` | python/temporal_agent_harness/harness/agent_client.py:430-437 | In every continuation of the agent in which the turn has started, the skip can match if and only if the message did not join |
| `TurnConsumer.ConsumeChildTurn` | python/temporal_agent_harness/harness/subagent_activities.py:201-234 | The reading loop is the fold, and the memo's offset ends just past the last item seen |
| `TurnConsumer.ConsumeExactly` | python/temporal_agent_harness/harness/subagent_activities.py:201-234 | Over any grammatical child log, with any siblings in the turn, what a reading gives for every starting offset: our own reply, or our own error in the child's words, up to our terminal, no reply after it, nothing after the turn |
| `TurnConsumer.ResumeIff` | python/temporal_agent_harness/harness/subagent_activities.py:350-358 | A resumed attempt gives our message's own result if and only if its memo is not past our terminal |
| `TurnConsumer.FirstAttemptIsExact` | python/temporal_agent_harness/harness/subagent_activities.py:314-320 | The composition: sent to a child in any reachable state and read from any offset the stream had then, the reading gives the message's own result |
| `SubagentDriver.ServableIff` | python/temporal_agent_harness/harness/agent_workflow.py:3357-3365 | A waiting ticket can still be served if and only if no ticket between the one being served and it was cancelled, or gave up, while it waited |
| `SubagentDriver.CancelledTicketBlocks` | python/temporal_agent_harness/harness/agent_workflow.py:3357-3358 | A run in which a call cancelled at the gate blocks the next one though the parent stays open |
| `SubagentTheorems.TicketsServedInOrder` | python/temporal_agent_harness/harness/agent_workflow.py:3356-3365 | Calls are served one at a time in call order, and exactly the tickets 0.._serving-1, even when closing makes waiters give up and calls are cancelled |
| `SubagentTheorems.EveryRunKeeps` | python/temporal_agent_harness/harness/agent_workflow.py:3341-3441 | Parent, activity and child together, over any interleaving of steps, crashes, timeouts, cancellations, deliveries with and without an open turn and the child's own end, keep the driver's invariant |
| `SubagentTheorems.RepliesAreOurs` | python/temporal_agent_harness/harness/subagent_activities.py:216-234 | A finished call returned what its own message's only terminal says, in the child's own words, never a sibling's |
| `SubagentTheorems.OverGives` | python/temporal_agent_harness/harness/subagent_activities.py:216-234 | A reading that is over has its own message's result; when it answers, the child's turn has ended or the child is gone |
| `SubagentTheorems.NoReplyIff` | python/temporal_agent_harness/harness/subagent_activities.py:151-163 | A reading gives no reply if and only if its attempt began past its own message's terminal or the child's stream ended before it |
| `SubagentTheorems.SendsOnce` | python/temporal_agent_harness/harness/subagent_activities.py:287-292 | Across any retries, crashes and attempts given up the first acceptance of a call's send stays the answer |
| `SubagentTheorems.OneAcceptancePerCall` | python/temporal_agent_harness/harness/subagent_activities.py:287-292 | Of all the sends of one call in a run at most one adds anything to the child's log, and that is its acceptance |
| `SubagentEffects.SendSays` | python/temporal_agent_harness/harness/subagent_activities.py:260-320 | A first send has the child accept the call's own message, announced as it is, and keeps the ids it was given; or the call fails with the child's own reason and the gate passes |
| `SubagentEffects.MarkerSays` | python/temporal_agent_harness/harness/subagent_activities.py:323-347 | The opening marker bears the accepted number and the offset where the last answered turn's window ended |
| `SubagentEffects.CloseSays` | python/temporal_agent_harness/harness/agent_workflow.py:3405-3441 | The closing marker bears the accepted number and is ok exactly for an answer; only an answer moves the offset the next turn is read from |
| `SubagentEffects.RetrySays` | python/temporal_agent_harness/harness/subagent_activities.py:126-143 | A retry goes on reading from its memo's offset without sending, and sends again only when there is no memo |
| `SubagentBrackets.BracketsIff` | python/temporal_agent_harness/harness/agent_workflow.py:3397-3441 | The sent/received markers of one child are well-formed brackets if and only if no two steps of the run clash, with no marker between them: a call cut short after its marker, or whose close found no turn open, then another turn's opening; a late marker of a given-up attempt, then a marker of another turn; an opening, then a late marker of another turn; a close, then a late marker of an earlier turn, or of the same one when it was answered |
| `SubagentBrackets.BracketsOfEveryRun` | python/temporal_agent_harness/harness/agent_workflow.py:3397-3441 | Without a call cut short after its marker, a close that finds no turn open, and late markers, every run's markers are well-formed; in every run a marker bears its call's accepted number, and a last bracket left open is the holder's, or was left by one of these, unless the child is gone |
| `SubagentBrackets.OverlapIsReachable` | python/temporal_agent_harness/harness/agent_workflow.py:3397-3441 | A run in which a cancelled call leaves its bracket open and the next one opens inside it |
| `SubagentBrackets.UnclosedIsReachable` | python/temporal_agent_harness/harness/agent_workflow.py:3496-3514 | A run with no attempt given up in which brackets overlap: a reply arrives when the parent has no turn open, publishing its close marker raises, and the next call opens inside |
| `SubagentBrackets.BracketNumbers` | python/temporal_agent_harness/harness/agent_workflow.py:3434-3441 | Bracket numbers never decrease and increase strictly after an ok close; two different brackets never overlap |
| `SubagentTheorems.WindowsOfEveryRun` | python/temporal_agent_harness/harness/subagent_activities.py:208-212 | Successive successful turns consume adjacent windows of the child's stream |
| `SubagentRunner.SubagentCaller.PassTheGate` | python/temporal_agent_harness/harness/agent_workflow.py:3358-3388 | After the wait the guard is read again: give up holding nothing, release for want of a turn, or dispatch from the last consumed offset |
| `SubagentRunner.SubagentCaller.CloseTurn` | python/temporal_agent_harness/harness/agent_workflow.py:3405-3441 | The bracket is closed and the offset advanced as the driver's delivery says, before the gate is released |
| `SubagentRunner.SubagentCaller.CloseOtherwise` | python/temporal_agent_harness/harness/agent_workflow.py:3397-3441 | A call that failed with no application error releases the gate and publishes nothing |
| `ApprovalTheorems.DispatchedIff` | python/temporal_agent_harness/harness/agent_workflow.py:560-637 | Over whole runs, a gate that is gone dispatched if and only if its call's resolution was published as approved and no step made the gate leave: its own cancellation or teardown, a malformed result seen after the call was settled, a cancelled evaluator seen before |
| `ApprovalTheorems.ClosedIffNeverLeftOpen` | python/temporal_agent_harness/harness/agent_workflow.py:2592-2669 | Over whole runs, the evaluation of a gate that is gone is closed if and only if no such step made it leave while the evaluation was open |
| `ApprovalTheorems.ApprovedAfterLeaving` | python/temporal_agent_harness/harness/agent_workflow.py:617-619 | From a new agent on, a run in which a call cancelled at the human gate is approved, and published as approved, with nothing dispatched |
| `ApprovalTheorems.EvaluationLife` | python/temporal_agent_harness/harness/agent_workflow.py:2592-2669 | What closes an evaluation is its only closing event, after its only start, of the same id |
| `ApprovalTheorems.PublishedExactlyWhenResolved` | python/temporal_agent_harness/harness/agent_workflow.py:2702-2742 | A call has a published resolution exactly when it is not pending, and it says what the entry says |
| `ApprovalTheorems.ResolvesOnce` | python/temporal_agent_harness/harness/agent_workflow.py:2288-2306 | No call is published resolved twice |
| `ApprovalTheorems.StaysSettled` | python/temporal_agent_harness/harness/agent_workflow.py:1715-1739 | First decision wins: over any later run a resolved call's entry does not change |
| `ApprovalTheorems.ResolutionIsAttributed` | python/temporal_agent_harness/harness/agent_workflow.py:2720-2741 | A resolution follows its request and carries the same turn, number, message and tool |
| `ApprovalTheorems.PolicyFixpoint` | python/temporal_agent_harness/harness/agent_workflow.py:2690-2700 | From a new agent on, no pending call is one the live policy auto-approves |
| `ApprovalEffects.DecisionSays` | python/temporal_agent_harness/harness/agent_workflow.py:2332-2343 | A person's decision on a pending call makes its entry approved or denied as the person said, with that reason, and publishes just that for the call's owner; unless it is an approval to be remembered nothing else changes |
| `ApprovalEffects.RememberedDecision` | python/temporal_agent_harness/harness/agent_workflow.py:2332-2343 | An approval to be remembered publishes its own resolution first, adds the tool to the policy and nothing else, then releases, in registration order, exactly the other pending calls the grown policy approves |
| `ApprovalEffects.HumanDecisionStands` | python/temporal_agent_harness/harness/agent_workflow.py:2308-2343 | Over any run a call whose first decision was a person's denial never dispatches, and one whose first decision was a person's approval is never turned down |
| `ApprovalEffects.PolicyReleases` | python/temporal_agent_harness/harness/agent_workflow.py:2671-2700 | Installing a policy releases, in registration order, exactly the pending calls it approves, or does nothing when it needs an evaluator that is not wired |
| `ApprovalEffects.RequestSays` | python/temporal_agent_harness/harness/agent_workflow.py:560-602 | Which calls leave no trace, which are registered and announced, and exactly when a call is put to the evaluator |
| `ApprovalEffects.VerdictSays` | python/temporal_agent_harness/harness/agent_workflow.py:605-615 | A deciding verdict is published and decides the call with the evaluator's reason |
| `ApprovalEffects.SupersededSays` | python/temporal_agent_harness/harness/agent_workflow.py:2611-2626 | An evaluation settled by somebody else first is superseded with the verdict it had reached, and only then with one |
| `ApprovalEffects.GateSays` | python/temporal_agent_harness/harness/agent_workflow.py:617-637 | The gate lets the call through exactly if it was approved; a call nobody decided is denied, and said to be, when the agent closes |
| `ApprovalTheorems.VerdictThenResolution` | python/temporal_agent_harness/harness/agent_workflow.py:605-615 | An approve or deny verdict is followed at once by the matching resolution |
| `ApprovalTheorems.SupersededOnlyWhenSettled` | python/temporal_agent_harness/harness/agent_workflow.py:2608-2626 | An evaluation is superseded only when the call was already resolved or the agent closed |
| `ApprovalTheorems.EvaluationClosedAtExit` | python/temporal_agent_harness/harness/agent_workflow.py:2592-2669 | A gate that dispatched or denied has its evaluation, if one was opened, closed by exactly one of ended, superseded and error, after its start |
| `ApprovalTheorems.OpenIffInGate` | python/temporal_agent_harness/harness/agent_workflow.py:2592-2616 | An evaluation is open exactly while its gate is at the evaluator, waits for it to unwind, or left there |
| `ApprovalMachine.Policy.WithToolAllowed` | python/temporal_agent_harness/harness/agent_protocol/agent_interface.py:535-543 | The named tool is now approved and nothing approved before is lost |
| `ApprovalRunner.ApprovalRegistry.OpenGate` | python/temporal_agent_harness/harness/agent_workflow.py:560-609 | A call the policy approves is neither registered nor published; any other is registered, published and, in auto mode, put to the evaluator |
| `ApprovalRunner.ApprovalRegistry.ApplyPolicyUpdate` | python/temporal_agent_harness/harness/agent_workflow.py:2671-2700 | The loop over pending entries is the machine's cascade; a policy with auto mode and no evaluator is refused |
| `ApprovalRunner.ApprovalRegistry.PendingEntries` | python/temporal_agent_harness/harness/agent_workflow.py:1755-1762 | Exactly the pending calls, in registration order |
| `ApprovalRunner.ApprovalRegistry.HandleToolApproval` | python/temporal_agent_harness/harness/agent_workflow.py:2308-2343 | A decision on a pending call makes its entry what the person said and publishes that first; any other decision is rejected with nothing changed |
| `ApprovalRunner.ApprovalRegistry.WakeAtEvaluator` | python/temporal_agent_harness/harness/agent_workflow.py:2607-2669 | The race with the evaluator ends as the machine says |
| `ApprovalRunner.ApprovalRegistry.WakeAtGate` | python/temporal_agent_harness/harness/agent_workflow.py:617-637 | The gate returns or raises by the entry's final status |
| `Callbacks.ReturnedIff` | python/temporal_agent_harness/harness/agent_workflow.py:2885-2909 | Over whole runs, a call that is gone returned a value if and only if its one published resolution says ok and its task was not cancelled or torn down while it waited |
| `Callbacks.SubmissionComesBack` | python/temporal_agent_harness/harness/agent_workflow.py:2744-2778 | In every run what the first accepted submission of a call held, a value or an error text, is what the call comes back with, unless its task was cancelled or torn down |
| `Callbacks.SubmissionIff` | python/temporal_agent_harness/harness/agent_workflow.py:2744-2778 | Which submissions are refused, and why; an error report is never malformed |
| `Callbacks.UnansweredSays` | python/temporal_agent_harness/harness/agent_workflow.py:2885-2909 | A call nobody answered times out in the words of its timer if that fired and of the close otherwise, and raises just that |
| `Callbacks.SettledForGood` | python/temporal_agent_harness/harness/agent_workflow.py:2753-2765 | First decision wins among client result, timeout and close |
| `Callbacks.MalformedDoesNotConsume` | python/temporal_agent_harness/harness/agent_workflow.py:2744-2778 | A malformed result leaves the call open to a corrected one, whose value the tool then returns |
| `Callbacks.CallbackRegistry.HandleProvideCallbackResult` | python/temporal_agent_harness/harness/agent_workflow.py:2744-2810 | A submission resolves and publishes, or is rejected with nothing changed |
| `Callbacks.CallbackRegistry.ResumeCall` | python/temporal_agent_harness/harness/agent_workflow.py:2885-2909 | A call nobody answered is finalized, its timeout named before the close, and published |
| `Router.Poll` | nexus/ui_connector/agent/driver.go:455-507 | One poll delivers, one for one and in order, what the reply hears and a reader is shown, each event as it was published, and is done exactly when it heard the event that ends the reply; otherwise the cursor advances |
| `Router.PassRelays` | nexus/ui_connector/agent/driver.go:96-149 | The same of any pass: text, thoughts, citations, usage, tools, approvals and outcomes are those of the events that were published, and nothing else is delivered |
| `Router.PassSplits` | nexus/ui_connector/agent/driver.go:471-505 | A pass does not depend on where the items are cut |
| `Router.Run` | nexus/ui_connector/router/workflow.go:38-88 | However the stream is cut into poll results, what is passed on is the start's events followed by exactly what the reply hears and a reader is shown from the starting cursor, one for one and in order |
| `Router.EndsAtOwnTerminal` | nexus/ui_connector/agent/driver.go:96-149 | A message-scoped reply over a grammatical log ends at its own message's terminal, which is the last event delivered |
| `Router.FinalIffOwnTerminal` | nexus/ui_connector/agent/driver.go:127-132 | It ends at nothing else: not at `turn_end`, not at a sibling's terminal |
| `Router.FinalIffTurnEnd` | nexus/ui_connector/agent/driver.go:127-128 | A turn-scoped reply ends exactly at the `turn_end` of its own number |
| `SchemaClosure.MentionsInside` | python/temporal_agent_harness/harness/agent_schema.py:177-187 | The values the walk visits are all that a mapping or a list holds: what is referred to anywhere inside, in mappings and in lists, is its own `$ref` or referred to inside a visited value |
| `SchemaClosure.RefNameIff` | python/temporal_agent_harness/harness/agent_schema.py:172-174 | The name that is followed is what the mapping's string-valued `$ref` spells, with or without the prefix |
| `SchemaClosure.Collector.Reached` | python/temporal_agent_harness/harness/agent_schema.py:177-187 | The walk terminates on any cyclic definitions and adds only reachable definitions, each with all it refers to; it fails only if a reachable definition is missing |
| `SchemaClosure.InitDataSchema` | python/temporal_agent_harness/harness/agent_schema.py:164-196 | It fails exactly when the root's definition or one it reaches is missing; otherwise it carries exactly the reachable names, less the root's own |
| `SchemaClosure.SelfContainedIff` | python/temporal_agent_harness/harness/agent_schema.py:189-195 | Every reference of the result but one to the root resolves inside it; all do if and only if the schema does not reach its own root |
| `SchemaClosure.RecursiveModelKeepsItsRootReference` | python/temporal_agent_harness/harness/agent_schema.py:193-195 | A concrete recursive model whose result refers to a definition it does not carry |
| `SteeringText.EscapeIsOnePass` | python/temporal_agent_harness/harness/steering.py:43-43 | The three successive replacements escape each character once, in one pass |
| `SteeringText.PrintsAs` | python/temporal_agent_harness/harness/steering.py:11-48 | What is printed, word for word, for one message and for one more, and how it is appended |
| `SteeringText.BlockReadsBack` | python/temporal_agent_harness/harness/steering.py:35-44 | A rendered block reads back as the list of texts it was printed from |
| `SteeringText.RenderingIsUnambiguous` | python/temporal_agent_harness/harness/steering.py:35-44 | Two batches render to one block if and only if they hold the same texts in the same order |
| `SteeringText.AppendingIsUnambiguous` | python/temporal_agent_harness/harness/steering.py:46-48 | From text with a block appended both parts are recoverable, even when the text itself looks like a block |
| `AgentIds.FreshSubagentHandle` | python/temporal_agent_harness/harness/agent_workflow.py:3249-3252 | The reroll returns the first drawn handle that is not registered, and finds one exactly when one was drawn |
| `AgentIds.StepWrites` | python/temporal_agent_harness/harness/agent_workflow.py:3249-3314 | What a mint, a launch, a registration and a stop write, and that they change nothing else |
| `AgentIds.IdDeterminesPath` | python/temporal_agent_harness/harness/agent_protocol/agent_interface.py:38-50 | Below one root an id determines the whole path to it, at any depth |
| `AgentIds.DistinctIff` | python/temporal_agent_harness/harness/agent_workflow.py:3243-3248 | No two agents of a tree of any depth ever share an id if and only if no agent launched two children under one segment |
| `AgentIds.RegisteredIdsAreUnique` | python/temporal_agent_harness/harness/agent_workflow.py:3243-3248 | Among agents reachable through live registries an id names one agent, collision or not |
| `AgentIds.MintIsSafeIff` | python/temporal_agent_harness/harness/agent_workflow.py:3249-3252 | A mint starts no clash if and only if its segment is not that of a start still under way: the reroll sees registered handles only |
| `AgentIds.RegisterLosesNothing` | python/temporal_agent_harness/harness/agent_workflow.py:1883-1887 | While starts do not clash, registering one keeps every other child registered and starts no clash |
| `AgentIds.TwoStartsShareAHandle` | python/temporal_agent_harness/harness/agent_workflow.py:3277-3314 | A run in which two overlapping starts share a handle and the first child is lost from the registry |

## Left out

- Turn machine: uuids are drawn from a counter, so two mints never collide; a payload is a string and its input model a predicate.
- Turn machine: an event an author publishes with no turn open raises in the source; here a publish by anyone is an arbitrary append of an event the turn protocol does not own, so that error is not shown.
- Turn machine: steering and claiming may occur at any moment, with any message id, which includes everything the ambient context allows.
- Turn machine: cancelling the agent's workflow, its loop with it, ends the run where it stands; every statement about runs holds of that run too, and nothing is said of what the workflow does while it ends.
- Turn machine: `close_after_idle` is whether a timeout is set; real time, replay and the scheduling inside one workflow task are not modelled.
- Approvals: a malformed evaluator result is one without a verdict; one that happens to carry a verdict of its own would be superseded like a decision.
- Approvals: which criteria set governs a tool is one flag of the call; criteria, short ids, tool inputs and evaluator labels are not modelled, and tool ids are numbers.
- Approvals and callbacks: registration requires a fresh tool id; what a reused approval id does is `RegisterKeepsSettledIff`.
- Subagents: attempts that were given up act through one step per call that sends and one that publishes the marker, at any time and any number of times; how long such an attempt can live is not modelled.
- Subagents: `stop_subagent` and the forgetting of a closed child are modelled only in the tree of ids, not in the driver, which follows one child.
- Subagents: update-id deduplication is a map from ticket to the original reply.
- AgentClient.MergedTurn: reads the agent's own stream and stops at no deadline, because merging subagent streams and the timeout item are another component.
- AgentClient.SendMessage: is stated over what has been published so far instead of a live stream, for the same reason.
- Client: the merge of a subagent's stream into its parent's, its stall grace, timeouts and `attach` are not part of this model; `AgentClient` reads the agent's own stream.
- Router: the payload codec, tool inputs and the outbound's stored state, its `Done` call and its pacing; a failed delivery counts as passed on. The number of polls observed is a parameter of `Run`, because the loop may not end.
- Router.Run: the service may fail, close, or cut the stream anywhere, but always answers from the cursor it is asked from.
- Schema: a document with no init data, which reads as none. JSON values keep mappings, lists and strings, other scalars by their text; an init-data schema that has a `$defs` of its own, which the result's would replace, keeps the two apart here.
- Ids: the supply of random segments is a parameter; the loop gives up when a finite supply is used up, which the source never does.
- Decorators, handler discovery, injected context, declared state and its JSON patches, adapters to model SDKs, chat drivers, large payloads and the example agents: reflection, codecs and input/output.
