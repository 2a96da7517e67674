/** The imperative code of the agent and its loop. Whatever the model, the tools, the hooks and the listeners
    do, every action is one that the automaton of AgentProtocol accepts at that point.

    Emit() and the other awaits let the rest of the program interfere: it may enqueue, clear or abort. */
module AgentLoop {
  import opened Results
  import opened AgentProtocol
  import opened AgentRuns
  import opened AgentQueue

  /** Only actions from outside the loop have come in between. */
  predicate Same(s: Scan, t: Scan) {
    t == s.(aborted := t.aborted, overridden := t.overridden, steering := t.steering, followUps := t.followUps)
    && (s.aborted ==> t.aborted)
  }

  /** The transcript after an event, and the partial message. */
  function Reduced(messages: seq<Message>, event: Event): seq<Message> {
    if event.MessageEnd? then messages + [event.message] else messages
  }

  function Partial(streaming: Option<Message>, event: Event): Option<Message> {
    if event.MessageStart? || event.MessageUpdate? then Some(event.message)
    else if event.MessageEnd? || event.AgentEnd? then None
    else streaming
  }

  /** The reducer computes what the automaton says of the transcript. */
  lemma ReducerFollows(before: seq<Message>, s: Scan, event: Event)
    requires EventAllowed(s, event)
    ensures AgentState(before, Next(s, Emit(event))) == Reduced(AgentState(before, s), event)
    ensures Next(s, Emit(event)).log.open == Partial(s.log.open, event)
  {
  }

  lemma OneMore(before: seq<Message>, pending: seq<Message>, i: nat)
    requires i < |pending|
    ensures pending[i..] != [] && pending[i..][0] == pending[i] && pending[i..][1..] == pending[i + 1..]
    ensures before + pending[..i] + [pending[i]] == before + pending[..i + 1]
  {
    assert pending[..i + 1] == pending[..i] + [pending[i]];
  }

  /** The model has answered. */
  function AnsweredTurn(message: Message): Turn {
    NEW_TURN.(called := true, result := Some(message), answer := Some(message))
  }

  datatype ToolExecution = AllAtOnce | OneByOne

  lemma Associate(a: seq<Message>, b: seq<Message>, c: seq<Message>)
    ensures a + b + c == a + (b + c)
  {
  }

  /** A model's stream starts its message at most once. */
  predicate OneStart(events: seq<StreamEvent>) {
    forall i, j :: 0 <= i < j < |events| ==> !(events[i].Start? && events[j].Start?)
  }

  function Every(asks: seq<bool>): (r: bool)
    ensures r <==> forall i :: 0 <= i < |asks| ==> asks[i]
  {
    asks == [] || (asks[0] && Every(asks[1..]))
  }

  /** shouldTerminateToolBatch(): a batch that leaves some call unasked, or has no calls, goes on. */
  function ShouldTerminate(asks: seq<bool>): (r: bool)
    ensures !r <==> asks == [] || exists i :: 0 <= i < |asks| && !asks[i]
  {
    |asks| > 0 && Every(asks)
  }

  datatype Continuation =
    | Busy
    | NoMessages
    | FromAssistant
    | Continued(source: Source, prompts: seq<Message>, done: bool)

  datatype Outcome = RunFinished | OutOfTurns | NothingLeft

  /** What drain() may take from a queue. */
  predicate Drains(queued: seq<Message>, mode: QueueMode, drained: seq<Message>) {
    if mode == All then drained == queued else drained == if queued == [] then [] else [queued[0]]
  }

  /** The queue without its first messages. */
  function Without(q: Queue, count: nat): Queue {
    if count <= |q.messages| then Queue(q.messages[count..], q.mode) else q
  }

  class Agent {
    const steeringQueue: PendingMessageQueue
    const followUpQueue: PendingMessageQueue
    const toolExecution: ToolExecution
    // the agent's state
    var messages: seq<Message>
    var streamingMessage: Option<Message>
    var activeRun: bool
    var aborted: bool
    // the arrays that the functions of the loop share
    var context: seq<Message>
    var newMessages: seq<Message>
    // which tools of the current context must not run beside others
    var sequentialTools: set<string>
    // history: the run, and what earlier runs took from the queues
    ghost var before: seq<Message>
    ghost var start: Scan
    ghost var actions: seq<Action>
    ghost var scan: Scan
    ghost var steeredBefore: seq<Message>
    ghost var followedBefore: seq<Message>

    ghost predicate TraceOk()
      reads this`before, this`start, this`actions, this`scan
    {
      Accepted(before, start, actions) && scan == Fold(start, actions) && scan.skips == start.skips
    }

    /** The agent's own copy of the transcript follows the events. */
    ghost predicate StateOk()
      reads this`messages, this`streamingMessage, this`aborted, this`before, this`scan
    {
      && messages == AgentState(before, scan)
      && streamingMessage == scan.log.open
      && aborted == scan.aborted
    }

    /** Everything drained from a queue is in the transcript, or in hand. */
    ghost predicate QueuesOk()
      reads this`scan, this`steeredBefore, this`followedBefore, steeringQueue, followUpQueue
    {
      && steeringQueue != followUpQueue && steeringQueue.Valid() && followUpQueue.Valid()
      && steeringQueue.taken == steeredBefore + (Injected(scan.log, Steering) + InHand(scan.log, Steering))
      && followUpQueue.taken == followedBefore + (Injected(scan.log, FollowUps) + InHand(scan.log, FollowUps))
    }

    /** The automaton knows what is queued. */
    ghost predicate Queued()
      reads this`scan, steeringQueue, followUpQueue
    {
      scan.steering == steeringQueue.Contents() && scan.followUps == followUpQueue.Contents()
    }

    ghost predicate Valid()
      reads this`messages, this`streamingMessage, this`aborted, this`before, this`start, this`actions, this`scan,
            this`steeredBefore, this`followedBefore, steeringQueue, followUpQueue
    {
      TraceOk() && StateOk() && QueuesOk() && Queued()
    }

    constructor (steeringMode: QueueMode, followUpMode: QueueMode, toolExecution: ToolExecution, initialMessages: seq<Message>)
      ensures Idle() && messages == initialMessages
      ensures scan == Initial([], Prompts, Queue([], steeringMode), Queue([], followUpMode))
      ensures fresh(steeringQueue) && fresh(followUpQueue) && this.toolExecution == toolExecution
    {
      steeringQueue := new PendingMessageQueue(steeringMode);
      followUpQueue := new PendingMessageQueue(followUpMode);
      this.toolExecution := toolExecution;
      messages, streamingMessage, activeRun, aborted := initialMessages, None, false, false;
      context, newMessages, sequentialTools := [], [], {};
      before, actions, steeredBefore, followedBefore := initialMessages, [], [], [];
      start := Initial([], Prompts, Queue([], steeringMode), Queue([], followUpMode));
      scan := Initial([], Prompts, Queue([], steeringMode), Queue([], followUpMode));
    }

    ghost method Do(a: Action)
      requires TraceOk() && Allowed(before, scan, a)
      modifies this`actions, this`scan
      ensures TraceOk() && actions == old(actions) + [a] && scan == Next(old(scan), a)
    {
      actions := actions + [a];
      scan := Next(scan, a);
      assert actions[..|actions| - 1] == old(actions);
    }

    /** The same for an action that drains no queue. */
    ghost method DoOther(a: Action)
      requires TraceOk() && QueuesOk() && Allowed(before, scan, a) && !a.Poll?
      modifies this`actions, this`scan
      ensures TraceOk() && QueuesOk() && actions == old(actions) + [a] && scan == Next(old(scan), a)
    {
      StepConserves(before, scan, a, Steering);
      StepConserves(before, scan, a, FollowUps);
      Do(a);
    }

    /** The loop does or learns something that the agent's state does not depend on. */
    ghost method Note(a: Action)
      requires Valid() && Allowed(before, scan, a) && !a.Emit? && !a.Poll? && !Aside(a)
      modifies this`actions, this`scan
      ensures Valid() && actions == old(actions) + [a] && scan == Next(old(scan), a)
    {
      DoOther(a);
    }

    /** While the loop awaits, the rest of the program runs. */
    method Interfere()
      requires Valid()
      modifies this`actions, this`scan, this`aborted, this`messages, steeringQueue, followUpQueue
      ensures Valid() && Same(old(scan), scan)
    {
      var n: nat := *;
      while n > 0
        invariant Valid() && Same(old(scan), scan)
      {
        n := n - 1;
        var m: Message, mode: QueueMode, overridden: seq<Message> := *, *, *;
        if
        case true => Steer(m);
        case true => FollowUp(m);
        case true => ClearSteeringQueue();
        case true => ClearFollowUpQueue();
        case true => SetSteeringMode(mode);
        case true => SetFollowUpMode(mode);
        case true => AbortRun();
        case true => AssignMessages(overridden);
      }
    }

    method Steer(message: Message)
      requires Valid()
      modifies this`actions, this`scan, steeringQueue
      ensures Valid() && (old(Idle()) ==> Idle()) && Same(old(scan), scan)
      ensures steeringQueue.messages == old(steeringQueue.messages) + [message] && steeringQueue.mode == old(steeringQueue.mode)
    {
      steeringQueue.Enqueue(message);
      DoOther(Enqueue(Steering, message));
    }

    method FollowUp(message: Message)
      requires Valid()
      modifies this`actions, this`scan, followUpQueue
      ensures Valid() && (old(Idle()) ==> Idle()) && Same(old(scan), scan)
      ensures followUpQueue.messages == old(followUpQueue.messages) + [message] && followUpQueue.mode == old(followUpQueue.mode)
    {
      followUpQueue.Enqueue(message);
      DoOther(Enqueue(FollowUps, message));
    }

    method ClearSteeringQueue()
      requires Valid()
      modifies this`actions, this`scan, steeringQueue
      ensures Valid() && (old(Idle()) ==> Idle()) && Same(old(scan), scan)
      ensures steeringQueue.messages == [] && steeringQueue.mode == old(steeringQueue.mode)
    {
      steeringQueue.Clear();
      DoOther(ClearQueue(Steering));
    }

    method ClearFollowUpQueue()
      requires Valid()
      modifies this`actions, this`scan, followUpQueue
      ensures Valid() && (old(Idle()) ==> Idle()) && Same(old(scan), scan)
      ensures followUpQueue.messages == [] && followUpQueue.mode == old(followUpQueue.mode)
    {
      followUpQueue.Clear();
      DoOther(ClearQueue(FollowUps));
    }

    method SetSteeringMode(mode: QueueMode)
      requires Valid()
      modifies this`actions, this`scan, steeringQueue
      ensures Valid() && (old(Idle()) ==> Idle()) && Same(old(scan), scan)
      ensures steeringQueue.mode == mode && steeringQueue.messages == old(steeringQueue.messages)
    {
      steeringQueue.SetMode(mode);
      DoOther(SetMode(Steering, mode));
    }

    method SetFollowUpMode(mode: QueueMode)
      requires Valid()
      modifies this`actions, this`scan, followUpQueue
      ensures Valid() && (old(Idle()) ==> Idle()) && Same(old(scan), scan)
      ensures followUpQueue.mode == mode && followUpQueue.messages == old(followUpQueue.messages)
    {
      followUpQueue.SetMode(mode);
      DoOther(SetMode(FollowUps, mode));
    }

    /** The agent's messages are assigned, during a run or between two. A run's own context stays as it is. */
    method AssignMessages(nextMessages: seq<Message>)
      requires Valid()
      modifies this`actions, this`scan, this`messages
      ensures Valid() && messages == nextMessages && scan == old(scan).(overridden := Some(nextMessages))
      ensures old(Idle()) ==> Idle()
    {
      messages := nextMessages;
      Do(Assign(nextMessages));
    }

    lemma StateIsKnown()
      requires Valid()
      ensures aborted == scan.aborted && messages == AgentState(before, scan) && scan.skips == start.skips
    {
    }

    method AbortRun()
      requires Valid()
      modifies this`actions, this`scan, this`aborted
      ensures Valid() && scan == old(scan).(aborted := true)
    {
      aborted := true;
      Do(Abort);
    }

    /** What an event makes of the agent's state. */
    method Reduce(event: Event)
      modifies this`messages, this`streamingMessage
      ensures messages == Reduced(old(messages), event) && streamingMessage == Partial(old(streamingMessage), event)
    {
      match event {
        case MessageStart(m) => streamingMessage := Some(m);
        case MessageUpdate(m) => streamingMessage := Some(m);
        case MessageEnd(m) =>
          streamingMessage := None;
          messages := messages + [m];
        case AgentEnd(_) => streamingMessage := None;
        case _ =>
      }
    }

    /** processEvents(): reduces the state, and then awaits the listeners. */
    method EmitEvent(event: Event)
      requires Valid() && EventAllowed(scan, event)
      modifies this`actions, this`scan, this`aborted, this`messages, this`streamingMessage, steeringQueue, followUpQueue
      ensures Valid() && Same(Next(old(scan), Emit(event)), scan)
    {
      ReducerFollows(before, scan, event);
      Reduce(event);
      DoOther(Emit(event));
      Interfere();
    }

    /** Emits a message that waited; what else the run is doing stays as it is. */
    method EmitWaiting(m: Message)
      requires Valid() && scan.log.open.None? && MayInject(scan, m) && scan.turn == NEW_TURN
      modifies this`actions, this`scan, this`aborted, this`messages, this`streamingMessage, steeringQueue, followUpQueue
      ensures Valid() && scan.log.open.None? && scan.log.ended == old(scan).log.ended + [m]
      ensures scan.log.pending == old(scan).log.pending[1..]
      ensures scan.position == InTurn && scan.turn == old(scan).turn && scan.flow == old(scan).flow
      ensures scan.replaced == old(scan).replaced && scan.log.turns == old(scan).log.turns
    {
      hide Agent.Valid;
      EmitEvent(MessageStart(m));
      EmitEvent(MessageEnd(m));
    }

    method InjectNext(m: Message)
      requires Valid() && scan.log.open.None? && MayInject(scan, m) && scan.turn == NEW_TURN
      requires newMessages == scan.log.ended && (!scan.replaced ==> context == before + scan.log.ended)
      modifies this`actions, this`scan, this`aborted, this`messages, this`streamingMessage, this`context, this`newMessages,
               steeringQueue, followUpQueue
      ensures Valid() && scan.position == InTurn && scan.log.open.None? && scan.log.pending == old(scan).log.pending[1..]
      ensures scan.turn == old(scan).turn && scan.flow == old(scan).flow && scan.replaced == old(scan).replaced
      ensures newMessages == scan.log.ended && (!scan.replaced ==> context == before + scan.log.ended)
      ensures newMessages == old(newMessages) + [m] && scan.log.turns == old(scan).log.turns
    {
      hide Agent.Valid;
      EmitWaiting(m);
      context := context + [m];
      newMessages := newMessages + [m];
    }

    /** The messages that wait are taken into the transcript, one by one. */
    method InjectPending(pending: seq<Message>)
      requires Valid() && scan.position == InTurn && scan.log.open.None? && scan.turn == NEW_TURN && scan.log.pending == pending
      requires newMessages == scan.log.ended && (!scan.replaced ==> context == before + scan.log.ended)
      modifies this`actions, this`scan, this`aborted, this`messages, this`streamingMessage, this`context, this`newMessages,
               steeringQueue, followUpQueue
      ensures Valid() && scan.position == InTurn && scan.log.open.None? && scan.log.pending == []
      ensures scan.turn == old(scan).turn && scan.flow == old(scan).flow && scan.replaced == old(scan).replaced
      ensures newMessages == scan.log.ended && (!scan.replaced ==> context == before + scan.log.ended)
      ensures newMessages == old(newMessages) + pending && scan.log.turns == old(scan).log.turns
    {
      hide Agent.Valid;
      var i := 0;
      while i < |pending|
        invariant 0 <= i <= |pending|
        invariant Valid() && scan.position == InTurn && scan.log.open.None? && scan.log.pending == pending[i..]
        invariant scan.turn == old(scan).turn && scan.flow == old(scan).flow && scan.replaced == old(scan).replaced
        invariant newMessages == scan.log.ended && (!scan.replaced ==> context == before + scan.log.ended)
        invariant newMessages == old(newMessages) + pending[..i] && scan.log.turns == old(scan).log.turns
      {
        OneMore(old(newMessages), pending, i);
        InjectNext(pending[i]);
        i := i + 1;
      }
      assert pending[..i] == pending;
    }

    /** The automaton learns what was drained. */
    ghost method NotePoll(source: Source, drained: seq<Message>)
      requires TraceOk() && StateOk() && Allowed(before, scan, Poll(source, drained))
      requires steeringQueue != followUpQueue && steeringQueue.Valid() && followUpQueue.Valid()
      requires steeringQueue.taken == steeredBefore + (Injected(scan.log, Steering) + InHand(scan.log, Steering))
                                      + if source == Steering then drained else []
      requires followUpQueue.taken == followedBefore + (Injected(scan.log, FollowUps) + InHand(scan.log, FollowUps))
                                      + if source == FollowUps then drained else []
      requires steeringQueue.Contents() == NextQueue(scan.steering, Steering, Poll(source, drained))
      requires followUpQueue.Contents() == NextQueue(scan.followUps, FollowUps, Poll(source, drained))
      modifies this`actions, this`scan
      ensures Valid() && scan == Next(old(scan), Poll(source, drained))
    {
      hide Accepted, Fold, Injected, InHand, Allowed;
      var steering, followUps := if source == Steering then drained else [], if source == FollowUps then drained else [];
      Associate(steeredBefore, Injected(scan.log, Steering) + InHand(scan.log, Steering), steering);
      Associate(followedBefore, Injected(scan.log, FollowUps) + InHand(scan.log, FollowUps), followUps);
      StepConserves(before, scan, Poll(source, drained), Steering);
      StepConserves(before, scan, Poll(source, drained), FollowUps);
      Do(Poll(source, drained));
    }

    /** getSteeringMessages(), or an empty answer without a look at the queue. */
    method PollSteering(skip: bool) returns (drained: seq<Message>)
      requires Valid() && MaySteer(scan) && (skip <==> scan.skips && Quiet(scan))
      modifies this`actions, this`scan, this`aborted, this`messages, steeringQueue, followUpQueue
      ensures Valid() && Same(Next(old(scan), Poll(Steering, drained)), scan)
      ensures if skip then drained == [] else Drains(old(steeringQueue.messages), old(steeringQueue.mode), drained)
    {
      drained := [];
      if !skip {
        drained := steeringQueue.Drain();
      }
      NotePoll(Steering, drained);
      Interfere();
    }

    method PollFollowUps() returns (drained: seq<Message>)
      requires Valid() && MayFollowUp(scan)
      modifies this`actions, this`scan, this`aborted, this`messages, steeringQueue, followUpQueue
      ensures Valid() && Same(Next(old(scan), Poll(FollowUps, drained)), scan)
      ensures Drains(old(followUpQueue.messages), old(followUpQueue.mode), drained)
    {
      drained := followUpQueue.Drain();
      NotePoll(FollowUps, drained);
      Interfere();
    }

    /** Whatever a model may stream. */
    method ModelStream() returns (events: seq<StreamEvent>)
      ensures OneStart(events)
    {
      events := *;
      if !OneStart(events) {
        events := [];
      }
    }

    method ModelResult() returns (message: Message)
      ensures message.Assistant?
    {
      var id: nat, stopReason: StopReason, toolCalls: seq<ToolCall> := *, *, *;
      message := Assistant(id, stopReason, toolCalls);
    }

    /** The model was called and has not answered yet; the context is c, followed by the partial message if
        there is one. */
    ghost predicate Streaming(s: Scan, c: seq<Message>, addedPartial: bool)
      reads this
    {
      && scan.position == InTurn && scan.turn == NEW_TURN.(called := true)
      && scan.log == s.log.(open := scan.log.open) && scan.flow == s.flow && scan.replaced == s.replaced
      && (scan.log.open.Some? <==> addedPartial)
      && (if addedPartial then |context| == |c| + 1 && context[..|c|] == c else context == c)
    }

    method CallTheModel()
      requires Valid() && MayCall(before, scan, context, messages)
      modifies this`actions, this`scan, this`aborted, this`messages, steeringQueue, followUpQueue
      ensures Valid() && Same(Next(old(scan), CallModel(context, messages)), scan)
    {
      hide Agent.Valid;
      Note(CallModel(context, messages));
      Interfere();
    }

    method HandleStreamEvent(event: StreamEvent, addedPartial: bool, ghost s: Scan, ghost c: seq<Message>) returns (added: bool)
      requires Valid() && Streaming(s, c, addedPartial) && (addedPartial ==> !event.Start?) && !event.Finish?
      modifies this`actions, this`scan, this`aborted, this`messages, this`streamingMessage, this`context, steeringQueue, followUpQueue
      ensures Valid() && Streaming(s, c, added) && added == (addedPartial || event.Start?)
    {
      hide Agent.Valid;
      added := addedPartial;
      Note(Streamed(event));
      match event
      case Start(id) =>
        var partial := Assistant(id, Pending, []);
        context := context + [partial];
        added := true;
        EmitEvent(MessageStart(partial));
      case Delta(id) =>
        if addedPartial {
          var partial := Assistant(id, Pending, []);
          context := context[|context| - 1 := partial];
          EmitEvent(MessageUpdate(partial));
        }
      case Finish =>
    }

    method FinishMessage(message: Message, addedPartial: bool, ghost s: Scan, ghost c: seq<Message>)
      requires Valid() && Streaming(s, c, addedPartial) && message.Assistant? && s.log.pending == [] && s.log.open.None?
      modifies this`actions, this`scan, this`aborted, this`messages, this`streamingMessage, this`context, steeringQueue, followUpQueue
      ensures Valid() && scan.position == InTurn && scan.turn == AnsweredTurn(message)
      ensures scan.log == s.log.(ended := s.log.ended + [message]) && scan.flow == s.flow && scan.replaced == s.replaced
      ensures context == c + [message]
    {
      hide Agent.Valid;
      TakeResult(message, addedPartial, s, c);
      if addedPartial {
        context := context[|context| - 1 := message];
      } else {
        context := context + [message];
        EmitEvent(MessageStart(message));
      }
      EmitEvent(MessageEnd(message));
    }

    /** response.result() */
    ghost method TakeResult(message: Message, addedPartial: bool, s: Scan, c: seq<Message>)
      requires Valid() && Streaming(s, c, addedPartial) && message.Assistant?
      modifies this`actions, this`scan
      ensures Valid() && scan.position == InTurn && scan.log == old(scan).log && scan.flow == s.flow && scan.replaced == s.replaced
      ensures scan.turn == NEW_TURN.(called := true, result := Some(message),
                                     due := Some(if addedPartial then MessageEnd(message) else MessageStart(message)))
    {
      hide Agent.Valid;
      Note(Answered(message));
    }

    /** Calls the model and follows its stream. The partial message stands in the context until the final one
        takes its place. */
    method StreamAssistantResponse() returns (message: Message)
      requires Valid() && scan.position == InTurn && scan.log.open.None? && scan.log.pending == []
      requires scan.turn == NEW_TURN && scan.flow.polled && (!scan.replaced ==> context == before + scan.log.ended)
      modifies this`actions, this`scan, this`aborted, this`messages, this`streamingMessage, this`context, steeringQueue, followUpQueue
      ensures Valid() && scan.position == InTurn && message.Assistant?
      ensures scan.turn == AnsweredTurn(message)
      ensures scan.log == old(scan).log.(ended := old(scan).log.ended + [message])
      ensures scan.flow == old(scan).flow && scan.replaced == old(scan).replaced
      ensures context == old(context) + [message]
    {
      hide Agent.Valid;
      Interfere();
      StateIsKnown();
      CallTheModel();
      var stream := ModelStream();
      var addedPartial := false;
      var i := 0;
      while i < |stream| && !stream[i].Finish?
        invariant 0 <= i <= |stream|
        invariant Valid() && Streaming(old(scan), old(context), addedPartial)
        invariant addedPartial ==> exists j :: 0 <= j < i && stream[j].Start?
        decreases |stream| - i
      {
        addedPartial := HandleStreamEvent(stream[i], addedPartial, old(scan), old(context));
        i := i + 1;
      }
      message := ModelResult();
      FinishMessage(message, addedPartial, old(scan), old(context));
    }

    /** A batch of tool calls is under way that began in state s. */
    ghost predicate InBatch(s: Scan, message: Message, mode: Mode)
      reads this
    {
      && scan.position == InTurn && message.Assistant?
      && scan.log == s.log.(ended := s.log.ended + scan.turn.results) && s.log.open.None?
      && scan.turn == Turn(true, None, Some(message), Some(message), Some(mode), scan.turn.tools, scan.turn.results)
      && scan.flow == s.flow && scan.replaced == s.replaced
    }

    method BeginToolBatch(message: Message, mode: Mode)
      requires Valid() && MayBegin(scan, mode) && scan.turn == AnsweredTurn(message)
      modifies this`actions, this`scan
      ensures Valid() && InBatch(old(scan), message, mode) && scan.turn.tools == [] && scan.turn.results == []
    {
      hide Agent.Valid;
      Note(BeginBatch(mode));
    }

    method StartTool(i: nat, ghost s: Scan, message: Message, mode: Mode)
      requires Valid() && InBatch(s, message, mode) && MayStartTool(scan, i)
      modifies this`actions, this`scan, this`aborted, this`messages, this`streamingMessage, steeringQueue, followUpQueue
      ensures Valid() && InBatch(s, message, mode)
      ensures scan.turn.tools == old(scan).turn.tools + [Running] && scan.turn.results == old(scan).turn.results
    {
      hide Agent.Valid;
      EmitEvent(ToolStart(i));
    }

    method EndTool(i: nat, terminate: bool, isError: bool, ghost s: Scan, message: Message, mode: Mode)
      requires Valid() && InBatch(s, message, mode) && EventAllowed(scan, ToolEnd(i, terminate, isError))
      modifies this`actions, this`scan, this`aborted, this`messages, this`streamingMessage, steeringQueue, followUpQueue
      ensures Valid() && InBatch(s, message, mode)
      ensures scan.turn.tools == old(scan).turn.tools[i := Ended(terminate, isError)] && scan.turn.results == old(scan).turn.results
      ensures old(scan.aborted) ==> scan.aborted
    {
      hide Agent.Valid;
      EmitEvent(ToolEnd(i, terminate, isError));
    }

    method ExecuteTool(i: nat, ghost s: Scan, message: Message, mode: Mode)
      requires Valid() && InBatch(s, message, mode) && Allowed(before, scan, Execute(i))
      modifies this`actions, this`scan, this`aborted, this`messages, steeringQueue, followUpQueue
      ensures Valid() && InBatch(s, message, mode)
      ensures scan.turn.tools == old(scan).turn.tools[i := Executing] && scan.turn.results == old(scan).turn.results
      ensures old(scan.aborted) ==> scan.aborted
    {
      hide Agent.Valid;
      Note(Execute(i));
      Interfere();
    }

    /** The tool calls back: its partial result is emitted while updates are accepted. */
    method CallBack(i: nat, acceptingUpdates: bool, ghost s: Scan, message: Message, mode: Mode)
      requires Valid() && InBatch(s, message, mode) && MayCallBack(scan, i)
      requires acceptingUpdates <==> scan.turn.tools[i] == Executing
      modifies this`actions, this`scan, this`aborted, this`messages, this`streamingMessage, steeringQueue, followUpQueue
      ensures Valid() && InBatch(s, message, mode) && scan.turn == old(scan).turn && (old(scan.aborted) ==> scan.aborted)
    {
      hide Agent.Valid;
      Note(CalledBack(i));
      if acceptingUpdates {
        EmitEvent(ToolUpdate(i));
      }
    }

    /** The tool returns, and no more updates are accepted. */
    method ReturnTool(i: nat, ghost s: Scan, message: Message, mode: Mode)
      requires Valid() && InBatch(s, message, mode) && ToolIs(scan, i, Executing)
      modifies this`actions, this`scan
      ensures Valid() && InBatch(s, message, mode)
      ensures scan.turn.tools == old(scan).turn.tools[i := Finishing] && scan.turn.results == old(scan).turn.results
      ensures old(scan.aborted) ==> scan.aborted
    {
      hide Agent.Valid;
      Note(Returned(i));
    }

    /** finalizeExecutedToolCall(): the hook after the call has the last word. */
    method FinalizeTool(i: nat, ghost s: Scan, message: Message, mode: Mode) returns (terminate: bool, isError: bool)
      requires Valid() && InBatch(s, message, mode) && ToolIs(scan, i, Finishing)
      modifies this`actions, this`scan, this`aborted, this`messages, steeringQueue, followUpQueue
      ensures Valid() && InBatch(s, message, mode)
      ensures scan.turn.tools == old(scan).turn.tools[i := Finished(terminate, isError)]
      ensures scan.turn.results == old(scan).turn.results && (old(scan.aborted) ==> scan.aborted)
    {
      hide Agent.Valid;
      Interfere();
      terminate, isError := *, *;
      Note(Finalized(i, terminate, isError));
    }

    /** emitToolResultMessage() */
    method ReportResult(result: Message, ghost s: Scan, message: Message, mode: Mode)
      requires Valid() && InBatch(s, message, mode) && MayReport(scan, result)
      modifies this`actions, this`scan, this`aborted, this`messages, this`streamingMessage, steeringQueue, followUpQueue
      ensures Valid() && InBatch(s, message, mode)
      ensures scan.turn.tools == old(scan).turn.tools && scan.turn.results == old(scan).turn.results + [result]
      ensures old(scan.aborted) ==> scan.aborted
    {
      hide Agent.Valid;
      EmitEvent(MessageStart(result));
      EmitEvent(MessageEnd(result));
      assert s.log.ended + scan.turn.results == s.log.ended + old(scan).turn.results + [result];
    }

    /** The calls of a truncated message are reported as errors, and none is executed. */
    method FailToolCalls(message: Message, ghost s: Scan) returns (results: seq<Message>)
      requires Valid() && InBatch(s, message, Truncated) && scan.turn.tools == [] && scan.turn.results == []
      modifies this`actions, this`scan, this`aborted, this`messages, this`streamingMessage, steeringQueue, followUpQueue
      ensures Valid() && InBatch(s, message, Truncated) && results == scan.turn.results
      ensures |results| == |scan.turn.tools| == |message.toolCalls|
      ensures forall i :: 0 <= i < |scan.turn.tools| ==> scan.turn.tools[i] == Ended(false, true)
    {
      hide Agent.Valid;
      results := [];
      var i := 0;
      while i < |message.toolCalls|
        invariant 0 <= i <= |message.toolCalls|
        invariant Valid() && InBatch(s, message, Truncated) && results == scan.turn.results
        invariant |results| == |scan.turn.tools| == i
        invariant forall j :: 0 <= j < i ==> scan.turn.tools[j] == Ended(false, true)
      {
        StartTool(i, s, message, Truncated);
        EndTool(i, false, true, s, message, Truncated);
        var result := ToolResult(message.toolCalls[i].id, true);
        ReportResult(result, s, message, Truncated);
        results := results + [result];
        i := i + 1;
      }
    }

    /** prepareToolCall(): None when the call is prepared, or whether the error that takes its place asks to
        terminate. Nothing is prepared once the run was aborted. */
    method PrepareToolCall(i: nat, ghost s: Scan, message: Message, mode: Mode) returns (immediate: Option<bool>)
      requires Valid() && InBatch(s, message, mode) && mode != Truncated && ToolIs(scan, i, Running)
      modifies this`actions, this`scan, this`aborted, this`messages, steeringQueue, followUpQueue
      ensures Valid() && InBatch(s, message, mode) && scan.turn.results == old(scan).turn.results && |scan.turn.tools| == |old(scan).turn.tools|
      ensures scan.turn.tools == old(scan).turn.tools[i := scan.turn.tools[i]] && (old(scan.aborted) ==> scan.aborted)
      ensures if immediate.None? then scan.turn.tools[i] == Prepared && !aborted
              else scan.turn.tools[i].Refused? && scan.turn.tools[i].terminate == immediate.value
    {
      Interfere();
      var verdict: Verdict := *;
      Note(Checked(i, verdict));
      if aborted {
        immediate := Some(false);
      } else if verdict.Blocks? {
        immediate := Some(verdict.terminate);
      } else {
        immediate := None;
      }
    }

    /** executePreparedToolCall() and finalizeExecutedToolCall(): the tool may call back at any time, also
        after it has returned, but only what comes before is passed on. */
    method ExecutePrepared(i: nat, ghost s: Scan, message: Message, mode: Mode) returns (terminate: bool, isError: bool)
      requires Valid() && InBatch(s, message, mode) && Allowed(before, scan, Execute(i))
      modifies this`actions, this`scan, this`aborted, this`messages, this`streamingMessage, steeringQueue, followUpQueue
      ensures Valid() && InBatch(s, message, mode)
      ensures scan.turn.tools == old(scan).turn.tools[i := Finished(terminate, isError)] && scan.turn.results == old(scan).turn.results
    {
      hide Agent.Valid;
      ExecuteTool(i, s, message, mode);
      var acceptingUpdates := true;
      var callbacks: nat, returnsAfter: nat := *, *;
      for c := 0 to callbacks
        invariant Valid() && InBatch(s, message, mode) && scan.turn.results == old(scan).turn.results
        invariant scan.turn.tools == old(scan).turn.tools[i := if acceptingUpdates then Executing else Finishing]
      {
        if c >= returnsAfter && acceptingUpdates {
          ReturnTool(i, s, message, mode);
          acceptingUpdates := false;
        }
        CallBack(i, acceptingUpdates, s, message, mode);
      }
      if acceptingUpdates {
        ReturnTool(i, s, message, mode);
      }
      terminate, isError := FinalizeTool(i, s, message, mode);
    }

    /** One call after the other, each with its result, until the run is aborted. */
    method ExecuteToolCallsSequential(message: Message, ghost s: Scan) returns (results: seq<Message>, terminate: bool)
      requires Valid() && InBatch(s, message, Sequential) && scan.turn.tools == [] && scan.turn.results == []
      requires message.toolCalls != []
      modifies this`actions, this`scan, this`aborted, this`messages, this`streamingMessage, steeringQueue, followUpQueue
      ensures Valid() && InBatch(s, message, Sequential) && results == scan.turn.results && results != []
      ensures |results| == |scan.turn.tools| && (|results| == |message.toolCalls| || scan.aborted)
      ensures AllEnded(scan.turn.tools) && (terminate <==> AllAsk(scan.turn.tools))
    {
      hide Agent.Valid;
      results := [];
      var asks: seq<bool> := [];
      var i := 0;
      StateIsKnown();
      while i < |message.toolCalls| && (i == 0 || !aborted)
        invariant 0 <= i <= |message.toolCalls| && aborted == scan.aborted
        invariant Valid() && InBatch(s, message, Sequential) && results == scan.turn.results
        invariant |results| == |scan.turn.tools| == |asks| == i
        invariant forall j :: 0 <= j < i ==> scan.turn.tools[j].Ended? && scan.turn.tools[j].terminate == asks[j]
        decreases |message.toolCalls| - i
      {
        var result, terminate := ExecuteOne(i, message, s);
        StateIsKnown();
        results, asks := results + [result], asks + [terminate];
        i := i + 1;
      }
      terminate := ShouldTerminate(asks);
    }

    method ExecuteOne(i: nat, message: Message, ghost s: Scan) returns (result: Message, terminate: bool)
      requires Valid() && InBatch(s, message, Sequential) && |scan.turn.results| == |scan.turn.tools| == i < |message.toolCalls|
      requires scan.aborted ==> i == 0
      modifies this`actions, this`scan, this`aborted, this`messages, this`streamingMessage, steeringQueue, followUpQueue
      ensures Valid() && InBatch(s, message, Sequential) && |scan.turn.tools| == i + 1
      ensures scan.turn.tools[..i] == old(scan).turn.tools && scan.turn.tools[i].Ended? && scan.turn.tools[i].terminate == terminate
      ensures scan.turn.results == old(scan).turn.results + [result]
    {
      hide Agent.Valid;
      var isError;
      terminate, isError := CallOne(i, message, s);
      result := ToolResult(message.toolCalls[i].id, isError);
      ReportResult(result, s, message, Sequential);
    }

    /** A call of a sequential batch, from its start to its end. */
    method CallOne(i: nat, message: Message, ghost s: Scan) returns (terminate: bool, isError: bool)
      requires Valid() && InBatch(s, message, Sequential) && |scan.turn.results| == |scan.turn.tools| == i < |message.toolCalls|
      requires scan.aborted ==> i == 0
      modifies this`actions, this`scan, this`aborted, this`messages, this`streamingMessage, steeringQueue, followUpQueue
      ensures Valid() && InBatch(s, message, Sequential)
      ensures scan.turn.tools == old(scan).turn.tools + [Ended(terminate, isError)]
      ensures scan.turn.results == old(scan).turn.results
    {
      hide Agent.Valid;
      StartTool(i, s, message, Sequential);
      var immediate := PrepareToolCall(i, s, message, Sequential);
      if immediate.Some? {
        terminate, isError := immediate.value, true;
      } else {
        terminate, isError := ExecutePrepared(i, s, message, Sequential);
      }
      EndTool(i, terminate, isError, s, message, Sequential);
    }

    /** The first part of a parallel batch: the calls are prepared one after the other, until the run is
        aborted, and those that fail at once end at once. */
    method PrepareParallel(message: Message, ghost s: Scan) returns (phases: seq<ToolPhase>)
      requires Valid() && InBatch(s, message, Parallel) && scan.turn.tools == [] && scan.turn.results == []
      requires message.toolCalls != []
      modifies this`actions, this`scan, this`aborted, this`messages, this`streamingMessage, steeringQueue, followUpQueue
      ensures ParallelOk(message, s, phases)
      ensures 0 < |phases| <= |message.toolCalls| && (|phases| == |message.toolCalls| || scan.aborted)
      ensures forall i :: 0 <= i < |phases| ==> phases[i] == Prepared || phases[i].Ended?
    {
      hide Agent.Valid;
      phases := [];
      var i := 0;
      StateIsKnown();
      while i < |message.toolCalls| && (i == 0 || !aborted)
        invariant 0 <= i <= |message.toolCalls| && aborted == scan.aborted
        invariant Valid() && InBatch(s, message, Parallel) && scan.turn.results == [] && phases == scan.turn.tools && |phases| == i
        invariant forall j :: 0 <= j < i ==> phases[j] == Prepared || phases[j].Ended?
        decreases |message.toolCalls| - i
      {
        var phase := PrepareOne(i, message, s);
        StateIsKnown();
        phases := phases + [phase];
        i := i + 1;
      }
    }

    method PrepareOne(i: nat, message: Message, ghost s: Scan) returns (phase: ToolPhase)
      requires Valid() && InBatch(s, message, Parallel) && scan.turn.results == [] && |scan.turn.tools| == i < |message.toolCalls|
      requires scan.aborted ==> i == 0
      modifies this`actions, this`scan, this`aborted, this`messages, this`streamingMessage, steeringQueue, followUpQueue
      ensures Valid() && InBatch(s, message, Parallel) && scan.turn.results == []
      ensures scan.turn.tools == old(scan).turn.tools + [phase] && (phase == Prepared || phase.Ended?)
    {
      hide Agent.Valid;
      StartTool(i, s, message, Parallel);
      phase := Prepared;
      var immediate := PrepareToolCall(i, s, message, Parallel);
      if immediate.Some? {
        EndTool(i, immediate.value, true, s, message, Parallel);
        phase := Ended(immediate.value, true);
      }
    }

    ghost predicate ParallelOk(message: Message, s: Scan, phases: seq<ToolPhase>)
      reads this, steeringQueue, followUpQueue
    {
      Valid() && InBatch(s, message, Parallel) && scan.turn.results == [] && phases == scan.turn.tools
    }

    /** Calls that are executing call back. */
    method PassUpdates(message: Message, ghost s: Scan, phases: seq<ToolPhase>)
      requires ParallelOk(message, s, phases)
      modifies this`actions, this`scan, this`aborted, this`messages, this`streamingMessage, steeringQueue, followUpQueue
      ensures ParallelOk(message, s, phases) && (old(scan.aborted) ==> scan.aborted)
    {
      hide Agent.Valid;
      var updates: seq<nat> := *;
      for k := 0 to |updates|
        invariant ParallelOk(message, s, phases) && (old(scan.aborted) ==> scan.aborted)
      {
        var i := updates[k];
        if 0 <= i < |phases| && phases[i] == Executing {
          CallBack(i, true, s, message, Parallel);
        }
      }
    }

    /** The second part: every prepared call is executed, in order. Each may emit updates before the next one
        is executed. */
    method StartParallel(message: Message, ghost s: Scan, given: seq<ToolPhase>) returns (phases: seq<ToolPhase>)
      requires ParallelOk(message, s, given) && forall i :: 0 <= i < |given| ==> given[i] == Prepared || given[i].Ended?
      modifies this`actions, this`scan, this`aborted, this`messages, this`streamingMessage, steeringQueue, followUpQueue
      ensures ParallelOk(message, s, phases) && |phases| == |given| && (old(scan.aborted) ==> scan.aborted)
      ensures forall i :: 0 <= i < |phases| ==> phases[i] == if given[i] == Prepared then Executing else given[i]
    {
      hide Agent.Valid;
      phases := given;
      for i := 0 to |phases|
        invariant ParallelOk(message, s, phases) && |phases| == |given| && (old(scan.aborted) ==> scan.aborted)
        invariant forall j :: 0 <= j < |phases| ==> phases[j] == if j < i && given[j] == Prepared then Executing else given[j]
      {
        if phases[i] == Prepared {
          ExecuteTool(i, s, message, Parallel);
          phases := phases[i := Executing];
          PassUpdates(message, s, phases);
        }
      }
    }

    /** The calls are under way, or over. */
    predicate UnderWay(phases: seq<ToolPhase>) {
      forall i :: 0 <= i < |phases| ==> phases[i] == Executing || phases[i] == Finishing || phases[i].Ended?
    }

    /** The third part: the calls go on in any order. The schedule names them in the order in which something
        happens to them: a callback, the return, or the end. */
    method FollowSchedule(message: Message, ghost s: Scan, given: seq<ToolPhase>) returns (phases: seq<ToolPhase>)
      requires ParallelOk(message, s, given) && UnderWay(given)
      modifies this`actions, this`scan, this`aborted, this`messages, this`streamingMessage, steeringQueue, followUpQueue
      ensures ParallelOk(message, s, phases) && |phases| == |given| && (old(scan.aborted) ==> scan.aborted)
      ensures UnderWay(phases)
    {
      hide Agent.Valid;
      phases := given;
      var schedule: seq<nat>, goesOn: seq<bool> := *, *;
      for k := 0 to |schedule|
        invariant ParallelOk(message, s, phases) && |phases| == |given| && (old(scan.aborted) ==> scan.aborted)
        invariant UnderWay(phases)
      {
        var i := schedule[k];
        if i < |phases| && !phases[i].Ended? {
          if k >= |goesOn| || !goesOn[k] {
            CallBack(i, phases[i] == Executing, s, message, Parallel);
          } else if phases[i] == Executing {
            ReturnTool(i, s, message, Parallel);
            phases := phases[i := Finishing];
          } else {
            phases := Conclude(i, phases, s, message);
          }
        }
      }
    }

    /** The batch waits for all of them: whatever the schedule left over returns in the end. */
    method AwaitParallel(message: Message, ghost s: Scan, given: seq<ToolPhase>) returns (phases: seq<ToolPhase>)
      requires ParallelOk(message, s, given) && UnderWay(given)
      modifies this`actions, this`scan, this`aborted, this`messages, this`streamingMessage, steeringQueue, followUpQueue
      ensures ParallelOk(message, s, phases) && |phases| == |given| && (old(scan.aborted) ==> scan.aborted)
      ensures AllEnded(phases)
    {
      hide Agent.Valid;
      phases := given;
      for i := 0 to |phases|
        invariant ParallelOk(message, s, phases) && |phases| == |given| && (old(scan.aborted) ==> scan.aborted)
        invariant UnderWay(phases)
        invariant forall j :: 0 <= j < i ==> phases[j].Ended?
      {
        if phases[i] == Executing {
          ReturnTool(i, s, message, Parallel);
          phases := phases[i := Finishing];
        }
        if phases[i] == Finishing {
          phases := Conclude(i, phases, s, message);
        }
      }
    }

    /** A call in a parallel batch has returned: the hook after it is asked, and its end is emitted. */
    method Conclude(i: nat, phases: seq<ToolPhase>, ghost s: Scan, message: Message) returns (concluded: seq<ToolPhase>)
      requires ParallelOk(message, s, phases) && i < |phases| && phases[i] == Finishing
      modifies this`actions, this`scan, this`aborted, this`messages, this`streamingMessage, steeringQueue, followUpQueue
      ensures ParallelOk(message, s, concluded)
      ensures |concluded| == |phases| && concluded[i].Ended? && concluded == phases[i := concluded[i]]
      ensures old(scan.aborted) ==> scan.aborted
    {
      hide Agent.Valid;
      var terminate, isError := FinalizeTool(i, s, message, Parallel);
      EndTool(i, terminate, isError, s, message, Parallel);
      concluded := phases[i := Ended(terminate, isError)];
    }

    /** The last part: the results, in the order of the calls. */
    method ReportParallel(message: Message, ghost s: Scan, phases: seq<ToolPhase>) returns (results: seq<Message>)
      requires ParallelOk(message, s, phases) && |phases| <= |message.toolCalls| && AllEnded(phases)
      modifies this`actions, this`scan, this`aborted, this`messages, this`streamingMessage, steeringQueue, followUpQueue
      ensures Valid() && InBatch(s, message, Parallel) && results == scan.turn.results && phases == scan.turn.tools
      ensures |results| == |phases| && (old(scan.aborted) ==> scan.aborted)
    {
      hide Agent.Valid;
      results := [];
      for i := 0 to |phases|
        invariant Valid() && InBatch(s, message, Parallel) && results == scan.turn.results && phases == scan.turn.tools
        invariant |results| == i && (old(scan.aborted) ==> scan.aborted)
      {
        var result := ToolResult(message.toolCalls[i].id, phases[i].isError);
        ReportResult(result, s, message, Parallel);
        results := results + [result];
      }
    }

    method ExecuteToolCallsParallel(message: Message, ghost s: Scan) returns (results: seq<Message>, terminate: bool)
      requires Valid() && InBatch(s, message, Parallel) && scan.turn.tools == [] && scan.turn.results == []
      requires message.toolCalls != []
      modifies this`actions, this`scan, this`aborted, this`messages, this`streamingMessage, steeringQueue, followUpQueue
      ensures Valid() && InBatch(s, message, Parallel) && results == scan.turn.results && results != []
      ensures |results| == |scan.turn.tools| && (|results| == |message.toolCalls| || scan.aborted)
      ensures AllEnded(scan.turn.tools) && (terminate <==> AllAsk(scan.turn.tools))
    {
      hide Agent.Valid;
      var prepared := PrepareParallel(message, s);
      var started := StartParallel(message, s, prepared);
      var followed := FollowSchedule(message, s, started);
      var phases := AwaitParallel(message, s, followed);
      results := ReportParallel(message, s, phases);
      var asks := seq(|phases|, i requires 0 <= i < |phases| => phases[i].Ended? && phases[i].terminate);
      assert forall i :: 0 <= i < |phases| ==> (asks[i] <==> phases[i].terminate);
      terminate := ShouldTerminate(asks);
    }

    /** The tool calls of an answer: their results, and whether the loop goes on because of them. */
    method RunToolCalls(message: Message) returns (results: seq<Message>, hasMoreToolCalls: bool)
      requires Valid() && scan.position == InTurn && scan.log.open.None? && scan.turn == AnsweredTurn(message)
      requires message.Assistant? && !Failed(message)
      modifies this`actions, this`scan, this`aborted, this`messages, this`streamingMessage, steeringQueue, followUpQueue
      ensures Valid() && scan.log == old(scan).log.(ended := old(scan).log.ended + results)
      ensures scan.flow == old(scan).flow && scan.replaced == old(scan).replaced
      ensures MayEndTurn(scan, message, results) && scan.turn.called
      ensures hasMoreToolCalls <==> scan.turn.tools != [] && !AllAsk(scan.turn.tools)
      ensures message.toolCalls != [] ==>
                scan.turn.mode == Some(if message.stopReason == Length then Truncated
                                       else if toolExecution == OneByOne || exists c :: c in message.toolCalls && c.name in sequentialTools
                                       then Sequential else Parallel)
    {
      hide Agent.Valid;
      if message.toolCalls == [] {
        results, hasMoreToolCalls := [], false;
        assert scan.log == old(scan).log.(ended := old(scan).log.ended + results);
        return;
      }
      ghost var s := scan;
      var hasSequentialToolCall := exists c :: c in message.toolCalls && c.name in sequentialTools;
      if message.stopReason == Length {
        BeginToolBatch(message, Truncated);
        results := FailToolCalls(message, s);
        hasMoreToolCalls := true;
        assert !scan.turn.tools[0].terminate;
      } else {
        var terminate: bool;
        if toolExecution == OneByOne || hasSequentialToolCall {
          BeginToolBatch(message, Sequential);
          results, terminate := ExecuteToolCallsSequential(message, s);
        } else {
          BeginToolBatch(message, Parallel);
          results, terminate := ExecuteToolCallsParallel(message, s);
        }
        hasMoreToolCalls := !terminate;
      }
    }

    /** The loop's own copies of the transcript are up to date. */
    ghost predicate CopiesOk()
      reads this
    {
      newMessages == scan.log.ended && (!scan.replaced ==> context == before + scan.log.ended) && scan.log.open.None?
    }

    method EndRun()
      requires Valid() && CopiesOk() && MayEnd(scan)
      modifies this`actions, this`scan, this`aborted, this`messages, this`streamingMessage, steeringQueue, followUpQueue
      ensures Valid() && CopiesOk() && scan.position == After && scan.log.pending == []
      ensures scan.log.turns == old(scan).log.turns
    {
      hide Agent.Valid;
      EmitEvent(AgentEnd(newMessages));
    }

    /** prepareNextTurn() and shouldStopAfterTurn(): a hook may put another context in place of the loop's. */
    method DecideNext() returns (stop: bool)
      requires Valid() && CopiesOk() && scan.position == Between && !scan.flow.decided && !LastFailed(scan)
      modifies this`actions, this`scan, this`aborted, this`messages, this`context, this`sequentialTools, steeringQueue, followUpQueue
      ensures Valid() && CopiesOk() && scan.position == Between && scan.log == old(scan).log && scan.turn == old(scan).turn
      ensures scan.flow == old(scan).flow.(decided := true, stop := stop)
    {
      hide Agent.Valid;
      var replacesContext := PrepareNextTurn();
      Interfere();
      stop := *;
      Note(Decide(replacesContext, stop));
    }

    method PrepareNextTurn() returns (replacesContext: bool)
      requires Valid()
      modifies this`actions, this`scan, this`aborted, this`messages, this`context, this`sequentialTools, steeringQueue, followUpQueue
      ensures Valid() && Same(old(scan), scan) && (!replacesContext ==> context == old(context))
    {
      Interfere();
      var supplied: Option<seq<Message>> := *;
      replacesContext := supplied.Some?;
      if supplied.Some? {
        context := supplied.value;
        sequentialTools := *;
      }
    }

    /** The model has answered: its message is in both copies. */
    ghost predicate HasAnswered(s: Scan, message: Message)
      reads this
    {
      && CopiesOk() && scan.position == InTurn && message.Assistant?
      && scan.turn == AnsweredTurn(message) && scan.log.pending == []
      && scan.log.turns == s.log.turns
    }

    method TakeAnswer() returns (message: Message)
      requires Valid() && CopiesOk() && scan.position == InTurn && scan.turn == NEW_TURN && scan.flow.polled && scan.log.pending == []
      modifies this`actions, this`scan, this`aborted, this`messages, this`streamingMessage, this`context, this`newMessages,
               steeringQueue, followUpQueue
      ensures Valid() && HasAnswered(old(scan), message)
    {
      hide Agent.Valid;
      message := StreamAssistantResponse();
      newMessages := newMessages + [message];
    }

    method TakeToolResults(message: Message) returns (toolResults: seq<Message>, hasMoreToolCalls: bool)
      requires Valid() && HasAnswered(scan, message) && !Failed(message)
      modifies this`actions, this`scan, this`aborted, this`messages, this`streamingMessage, this`context, this`newMessages,
               steeringQueue, followUpQueue
      ensures Valid() && CopiesOk() && scan.log.pending == [] && MayEndTurn(scan, message, toolResults)
      ensures scan.log.turns == old(scan).log.turns
      ensures hasMoreToolCalls <==> scan.turn.tools != [] && !AllAsk(scan.turn.tools)
    {
      hide Agent.Valid;
      ghost var ended := scan.log.ended;
      toolResults, hasMoreToolCalls := RunToolCalls(message);
      assert before + (ended + toolResults) == before + ended + toolResults;
      context := context + toolResults;
      newMessages := newMessages + toolResults;
    }

    method FinishTurn(message: Message, toolResults: seq<Message>)
      requires Valid() && CopiesOk() && scan.log.pending == [] && MayEndTurn(scan, message, toolResults)
      modifies this`actions, this`scan, this`aborted, this`messages, this`streamingMessage, steeringQueue, followUpQueue
      ensures Valid() && CopiesOk() && scan.position == Between && scan.log.pending == [] && scan.turn == old(scan).turn
      ensures scan.flow == Flow(false, scan.turn.tools != [] && !AllAsk(scan.turn.tools), false, false, false)
      ensures scan.log.turns == old(scan).log.turns + 1
    {
      hide Agent.Valid;
      EmitEvent(TurnEnd(message, toolResults));
    }

    /** The model answers, its tool calls are run, and the turn has ended. */
    method AnswerTurn() returns (message: Message, hasMoreToolCalls: bool)
      requires Valid() && CopiesOk() && scan.position == InTurn && scan.turn == NEW_TURN && scan.flow.polled && scan.log.pending == []
      modifies this`actions, this`scan, this`aborted, this`messages, this`streamingMessage, this`context, this`newMessages,
               steeringQueue, followUpQueue
      ensures Valid() && CopiesOk() && scan.position == Between && scan.log.pending == []
      ensures scan.turn.answer == Some(message) && message.Assistant?
      ensures scan.flow == Flow(false, hasMoreToolCalls, false, false, false)
      ensures scan.log.turns == old(scan).log.turns + 1
    {
      hide Agent.Valid;
      message := TakeAnswer();
      if message.stopReason == Error || message.stopReason == Aborted {
        hasMoreToolCalls := false;
        FinishTurn(message, []);
        return;
      }
      var toolResults;
      toolResults, hasMoreToolCalls := TakeToolResults(message);
      FinishTurn(message, toolResults);
    }

    /** What follows a turn: the hooks, and a look for steering messages. */
    method AfterTurn() returns (finished: bool, next: seq<Message>)
      requires Valid() && CopiesOk() && scan.position == Between && scan.log.pending == [] && !LastFailed(scan)
      requires scan.flow == Flow(false, scan.flow.hasMore, false, false, false)
      modifies this`actions, this`scan, this`aborted, this`messages, this`streamingMessage, this`context, this`sequentialTools, steeringQueue, followUpQueue
      ensures Valid() && CopiesOk()
      ensures finished ==> scan.position == After && scan.log.pending == []
      ensures !finished ==> scan.position == Between && scan.flow == old(scan).flow.(polled := true, decided := true)
                            && scan.log.pending == next
      ensures scan.log.turns == old(scan).log.turns
    {
      hide Agent.Valid;
      var stop := DecideNext();
      if stop {
        EndRun();
        return true, [];
      }
      next := PollSteering(false);
      finished := false;
    }

    /** One pass of the inner loop, once its turn has started. */
    method RunTurn(pending: seq<Message>) returns (finished: bool, hasMoreToolCalls: bool, next: seq<Message>)
      requires Valid() && CopiesOk() && scan.position == InTurn && scan.turn == NEW_TURN && scan.flow.polled
      requires scan.log.pending == pending
      modifies this`actions, this`scan, this`aborted, this`messages, this`streamingMessage, this`context, this`sequentialTools, this`newMessages,
               steeringQueue, followUpQueue
      ensures Valid() && CopiesOk()
      ensures finished ==> scan.position == After && scan.log.pending == []
      ensures !finished ==> scan.position == Between && scan.flow == Flow(true, hasMoreToolCalls, true, false, false)
                            && scan.log.pending == next
      ensures scan.log.turns == old(scan).log.turns + 1
    {
      hide Agent.Valid;
      InjectPending(pending);
      var message;
      message, hasMoreToolCalls := AnswerTurn();
      if message.stopReason == Error || message.stopReason == Aborted {
        EndRun();
        return true, hasMoreToolCalls, [];
      }
      finished, next := AfterTurn();
    }

    /** Where the loop stands between two turns. */
    ghost predicate BetweenTurns(pending: seq<Message>, firstTurn: bool, hasMoreToolCalls: bool)
      reads this
    {
      && CopiesOk() && scan.log.pending == pending
      && (if firstTurn then scan.position == InTurn && scan.turn == NEW_TURN && scan.flow.polled
          else scan.position == Between && scan.flow == Flow(true, hasMoreToolCalls, true, false, false))
    }

    method BeginTurn(pending: seq<Message>, firstTurn: bool, ghost hasMoreToolCalls: bool)
      requires Valid() && BetweenTurns(pending, firstTurn, hasMoreToolCalls) && (firstTurn || hasMoreToolCalls || pending != [])
      modifies this`actions, this`scan, this`aborted, this`messages, this`streamingMessage, steeringQueue, followUpQueue
      ensures Valid() && BetweenTurns(pending, true, hasMoreToolCalls) && scan.log.turns == old(scan).log.turns
    {
      hide Agent.Valid;
      if !firstTurn {
        EmitEvent(TurnStart);
      }
    }

    /** The inner loop: turn after turn, while there are tool calls to continue or messages that wait. */
    method RunTurns(given: seq<Message>, first: bool, turns: nat) returns (outcome: Outcome, left: nat)
      requires Valid() && BetweenTurns(given, first, false) && (first || given != [])
      modifies this`actions, this`scan, this`aborted, this`messages, this`streamingMessage, this`context, this`sequentialTools, this`newMessages,
               steeringQueue, followUpQueue
      ensures Valid()
      ensures outcome == RunFinished ==> CopiesOk() && scan.position == After && scan.log.pending == []
      ensures outcome == NothingLeft ==> left < turns && BetweenTurns([], false, false)
      ensures outcome == OutOfTurns ==> left == 0
      ensures scan.log.turns + left == old(scan).log.turns + turns
    {
      hide Agent.Valid;
      var pending, firstTurn, hasMoreToolCalls := given, first, true;
      left := turns;
      while hasMoreToolCalls || |pending| > 0
        invariant Valid() && left <= turns
        invariant BetweenTurns(pending, firstTurn, hasMoreToolCalls) || (left == turns && BetweenTurns(pending, firstTurn, false))
        invariant left == turns ==> hasMoreToolCalls && (firstTurn || pending != [])
        invariant firstTurn ==> left == turns
        invariant scan.log.turns + left == old(scan).log.turns + turns
        decreases left
      {
        if left == 0 {
          return OutOfTurns, left;
        }
        left := left - 1;
        BeginTurn(pending, firstTurn, scan.flow.hasMore);
        firstTurn := false;
        var finished;
        finished, hasMoreToolCalls, pending := RunTurn(pending);
        if finished {
          return RunFinished, left;
        }
      }
      outcome := NothingLeft;
    }

    /** The outer and the inner loop. Neither need ever end, so the number of turns is limited here by an
        arbitrary number; `done` tells whether the run ended before. */
    method RunLoop(skipInitialSteeringPoll: bool, turns: nat) returns (done: bool)
      requires skipInitialSteeringPoll == start.skips
      requires Valid() && CopiesOk() && scan.position == InTurn && scan.turn == NEW_TURN && !scan.flow.polled && scan.log.pending == []
      modifies this`actions, this`scan, this`aborted, this`messages, this`streamingMessage, this`context, this`sequentialTools, this`newMessages,
               steeringQueue, followUpQueue
      ensures Valid()
      ensures done ==> CopiesOk() && scan.position == After && scan.log.pending == []
      ensures !done ==> scan.log.turns == old(scan).log.turns + turns
    {
      hide Agent.Valid;
      StateIsKnown();
      var pending := PollSteering(skipInitialSteeringPoll);
      var firstTurn, left := true, turns;
      while true
        invariant Valid()
        invariant BetweenTurns(pending, firstTurn, false) && (firstTurn || pending != [])
        invariant scan.log.turns + left == old(scan).log.turns + turns
        decreases left
      {
        var outcome, rest := RunTurns(pending, firstTurn, left);
        if outcome != NothingLeft {
          return outcome == RunFinished;
        }
        left, firstTurn := rest, false;
        var followUpMessages := PollFollowUps();
        if |followUpMessages| == 0 {
          break;
        }
        pending := followUpMessages;
      }
      EndRun();
      done := true;
    }

    // -------------------------------------------------------------------------------------
    // Whole runs

    /** No run is active, and nothing drained is in hand. */
    ghost predicate Idle()
      reads this, steeringQueue, followUpQueue
    {
      Valid() && !activeRun && scan.log.pending == [] && scan.log.open.None?
    }

    /** The run that has just ended: the automaton accepts it to its end; the agent's state has grown by the
        messages it returned, unless it was assigned meanwhile; these begin with the prompts, and have in order
        what was taken from each queue; and each queue's messages were taken or are still queued. */
    ghost predicate RunOver(transcript: seq<Message>, initial: Scan)
      reads this, steeringQueue, followUpQueue
    {
      && Idle() && Accepted(transcript, initial, actions) && Fold(initial, actions).position == After
      && messages == StateAfter(transcript, actions) && (!AssignsState(actions) ==> messages == transcript + newMessages)
      && newMessages == EndedIn(actions) && initial.log.pending <= newMessages
      && IsSubsequence(scan.log.steered, newMessages) && IsSubsequence(scan.log.followed, newMessages)
      && steeringQueue.kept == steeredBefore + scan.log.steered + steeringQueue.messages
      && followUpQueue.kept == followedBefore + scan.log.followed + followUpQueue.messages
    }

    /** The history of a run begins. What was drained for it as prompts is in hand. */
    ghost method BeginHistory(prompts: seq<Message>, source: Source, steered: seq<Message>, followed: seq<Message>)
      requires streamingMessage.None? && !aborted
      requires steeringQueue != followUpQueue && steeringQueue.Valid() && followUpQueue.Valid()
      requires steeringQueue.taken == steered + (if source == Steering then prompts else [])
      requires followUpQueue.taken == followed + (if source == FollowUps then prompts else [])
      modifies this`before, this`start, this`actions, this`scan, this`steeredBefore, this`followedBefore
      ensures Valid() && before == messages && actions == []
      ensures start == scan == Initial(prompts, source, steeringQueue.Contents(), followUpQueue.Contents())
      ensures steeredBefore == steered && followedBefore == followed
    {
      before, actions, steeredBefore, followedBefore := messages, [], steered, followed;
      start := Initial(prompts, source, steeringQueue.Contents(), followUpQueue.Contents());
      scan := start;
      InitialInHand(prompts, source, steeringQueue.Contents(), followUpQueue.Contents(), Steering);
      InitialInHand(prompts, source, steeringQueue.Contents(), followUpQueue.Contents(), FollowUps);
    }

    method BeginRun(prompts: seq<Message>, ghost source: Source, ghost steered: seq<Message>, ghost followed: seq<Message>)
      requires streamingMessage.None? && steeringQueue != followUpQueue && steeringQueue.Valid() && followUpQueue.Valid()
      requires steeringQueue.taken == steered + (if source == Steering then prompts else [])
      requires followUpQueue.taken == followed + (if source == FollowUps then prompts else [])
      modifies this`activeRun, this`aborted, this`context, this`sequentialTools, this`newMessages, this`before, this`start, this`actions, this`scan,
               this`steeredBefore, this`followedBefore
      ensures Valid() && activeRun && !aborted && before == messages
      ensures start == scan == Initial(prompts, source, steeringQueue.Contents(), followUpQueue.Contents()) && actions == []
      ensures context == messages + prompts && newMessages == prompts
      ensures steeredBefore == steered && followedBefore == followed
    {
      activeRun, aborted := true, false;
      context, newMessages := messages + prompts, prompts;
      sequentialTools := *;
      BeginHistory(prompts, source, steered, followed);
    }

    lemma EndedWhole()
      requires Valid() && !activeRun && scan.position == After && scan.log.pending == [] && scan.log.open.None?
      requires newMessages == scan.log.ended && start == Initial(start.log.pending, start.log.source, start.steering, start.followUps)
      ensures RunOver(before, start)
    {
      hide IsSubsequence, Fold, EndedIn, Accepted, StateAfter, AssignsState;
      InitialInjected(start.log.pending, start.log.source, start.steering, start.followUps);
      TranscriptIsWhole(before, start, actions);
      StateFollows(before, start, actions);
    }

    method FinishRun()
      requires Valid() && activeRun && scan.position == After && scan.log.pending == [] && scan.log.open.None?
      requires newMessages == scan.log.ended && start == Initial(start.log.pending, start.log.source, start.steering, start.followUps)
      modifies this`activeRun
      ensures RunOver(before, start)
    {
      activeRun := false;
      EndedWhole();
    }

    method OpenFirstTurn()
      requires Valid() && scan.position == Before
      modifies this`actions, this`scan, this`aborted, this`messages, this`streamingMessage, steeringQueue, followUpQueue
      ensures Valid() && scan.position == InTurn && scan.turn == NEW_TURN && scan.log == old(scan).log
      ensures scan.flow == old(scan).flow && scan.replaced == old(scan).replaced
    {
      hide Agent.Valid;
      EmitEvent(AgentStart);
      EmitEvent(TurnStart);
    }

    method EmitPrompts(prompts: seq<Message>)
      requires Valid() && scan.position == InTurn && scan.log.open.None? && scan.log.pending == prompts && scan.log.ended == []
      requires scan.turn == NEW_TURN
      modifies this`actions, this`scan, this`aborted, this`messages, this`streamingMessage, steeringQueue, followUpQueue
      ensures Valid() && scan.position == InTurn && scan.log.open.None? && scan.log.pending == [] && scan.log.ended == prompts
      ensures scan.turn == NEW_TURN && scan.flow == old(scan).flow && scan.replaced == old(scan).replaced
      ensures scan.log.turns == old(scan).log.turns
    {
      hide Agent.Valid;
      var i := 0;
      while i < |prompts|
        invariant 0 <= i <= |prompts|
        invariant Valid() && scan.position == InTurn && scan.log.open.None? && scan.log.pending == prompts[i..]
        invariant scan.log.ended == prompts[..i] && scan.turn == NEW_TURN
        invariant scan.flow == old(scan).flow && scan.replaced == old(scan).replaced && scan.log.turns == old(scan).log.turns
      {
        EmitWaiting(prompts[i]);
        i := i + 1;
      }
      assert prompts[..i] == prompts;
    }

    method RunPromptTurn(prompts: seq<Message>)
      requires Valid() && scan == Initial(prompts, scan.log.source, scan.steering, scan.followUps)
      modifies this`actions, this`scan, this`aborted, this`messages, this`streamingMessage, steeringQueue, followUpQueue
      ensures Valid() && scan.position == InTurn && scan.log.open.None? && scan.log.pending == [] && scan.log.ended == prompts
      ensures scan.turn == NEW_TURN && !scan.flow.polled && !scan.replaced && scan.log.turns == 0
    {
      hide Agent.Valid;
      OpenFirstTurn();
      EmitPrompts(prompts);
    }

    /** runAgentLoop(): the prompts open the first turn. */
    method RunAgentLoop(prompts: seq<Message>, skipInitialSteeringPoll: bool, turns: nat) returns (done: bool)
      requires skipInitialSteeringPoll == start.skips
      requires Valid() && activeRun && start == scan && scan == Initial(prompts, scan.log.source, scan.steering, scan.followUps)
      requires context == messages + prompts && newMessages == prompts
      modifies this`actions, this`scan, this`aborted, this`messages, this`streamingMessage, this`context, this`sequentialTools, this`newMessages,
               this`activeRun, steeringQueue, followUpQueue
      ensures Valid() && (done ==> RunOver(before, start)) && (!done ==> activeRun && scan.log.turns == turns)
    {
      hide Agent.Valid;
      StateIsKnown();
      assert messages == before;
      RunPromptTurn(prompts);
      assert CopiesOk();
      done := RunLoop(skipInitialSteeringPoll, turns);
      if done {
        FinishRun();
      }
    }

    /** prompt(): refused while a run is active. */
    method Prompt(prompts: seq<Message>, turns: nat) returns (accepted: bool, done: bool)
      requires if activeRun then Valid() else Idle()
      modifies this, steeringQueue, followUpQueue
      ensures accepted <==> !old(activeRun)
      ensures !accepted ==> Valid() && activeRun && messages == old(messages) && scan == old(scan)
      ensures accepted && done ==>
                RunOver(old(messages), Initial(prompts, Prompts, old(steeringQueue.Contents()), old(followUpQueue.Contents())))
      ensures accepted && done ==> steeredBefore == old(steeringQueue.taken) && followedBefore == old(followUpQueue.taken)
      ensures accepted && !done ==> Valid() && activeRun && scan.log.turns == turns
    {
      hide Agent.RunOver, Accepted, Fold;
      if activeRun {
        return false, false;
      }
      accepted := true;
      done := RunPrompts(prompts, Prompts, steeringQueue.taken, followUpQueue.taken, false, turns);
    }

    /** A run on prompts, whatever they were drained from. */
    method RunPrompts(prompts: seq<Message>, ghost source: Source, ghost steered: seq<Message>, ghost followed: seq<Message>,
                      skipInitialSteeringPoll: bool, turns: nat)
      returns (done: bool)
      requires skipInitialSteeringPoll <==> source == Steering
      requires streamingMessage.None? && steeringQueue != followUpQueue && steeringQueue.Valid() && followUpQueue.Valid()
      requires steeringQueue.taken == steered + (if source == Steering then prompts else [])
      requires followUpQueue.taken == followed + (if source == FollowUps then prompts else [])
      modifies this, steeringQueue, followUpQueue
      ensures done ==>
                RunOver(old(messages), Initial(prompts, source, old(steeringQueue.Contents()), old(followUpQueue.Contents())))
      ensures !done ==> Valid() && activeRun && scan.log.turns == turns
      ensures steeredBefore == steered && followedBefore == followed
    {
      hide Agent.RunOver, Accepted, Fold;
      BeginRun(prompts, source, steered, followed);
      done := RunAgentLoop(prompts, skipInitialSteeringPoll, turns);
    }

    /** continue(): from a user's message or a tool result as it is; from an assistant's with what is queued,
        steering messages first. */
    method ContinueRun(turns: nat) returns (result: Continuation)
      requires if activeRun then Valid() else Idle()
      modifies this, steeringQueue, followUpQueue
      ensures result == Busy <==> old(activeRun)
      ensures result == NoMessages <==> !old(activeRun) && old(messages) == []
      ensures result == FromAssistant <==>
                !old(activeRun) && old(messages) != [] && old(messages)[|old(messages)| - 1].Assistant?
                && old(steeringQueue.messages) == [] && old(followUpQueue.messages) == []
      ensures !result.Continued? ==> messages == old(messages) && activeRun == old(activeRun) && scan == old(scan)
      ensures result.Continued? && result.done ==>
                RunOver(old(messages),
                        Initial(result.prompts, result.source,
                                Without(old(steeringQueue.Contents()), if result.source == Steering then |result.prompts| else 0),
                                Without(old(followUpQueue.Contents()), if result.source == FollowUps then |result.prompts| else 0)))
      ensures result.Continued? && !result.done ==> Valid() && activeRun && scan.log.turns == turns
      ensures result.Continued? && result.source == Prompts ==>
                result.prompts == [] && !old(messages)[|old(messages)| - 1].Assistant?
      ensures result.Continued? && result.source == Steering ==>
                result.prompts != [] && Drains(old(steeringQueue.messages), old(steeringQueue.mode), result.prompts)
      ensures result.Continued? && result.source == FollowUps ==>
                && result.prompts != [] && old(steeringQueue.messages) == []
                && Drains(old(followUpQueue.messages), old(followUpQueue.mode), result.prompts)
      ensures result.Continued? ==> steeredBefore == old(steeringQueue.taken) && followedBefore == old(followUpQueue.taken)
    {
      hide Agent.RunOver, Accepted, Fold;
      if activeRun {
        return Busy;
      }
      if |messages| == 0 {
        return NoMessages;
      }
      ghost var steered, followed := steeringQueue.taken, followUpQueue.taken;
      var done: bool;
      if messages[|messages| - 1].Assistant? {
        var queuedSteering := steeringQueue.Drain();
        if |queuedSteering| > 0 {
          done := RunPrompts(queuedSteering, Steering, steered, followed, true, turns);
          return Continued(Steering, queuedSteering, done);
        }
        var queuedFollowUps := followUpQueue.Drain();
        if |queuedFollowUps| > 0 {
          done := RunPrompts(queuedFollowUps, FollowUps, steered, followed, false, turns);
          return Continued(FollowUps, queuedFollowUps, done);
        }
        return FromAssistant;
      }
      done := RunPrompts([], Prompts, steered, followed, false, turns);
      result := Continued(Prompts, [], done);
    }

    method HasQueuedMessages() returns (has: bool)
      ensures has <==> steeringQueue.messages + followUpQueue.messages != []
    {
      var steering := steeringQueue.HasItems();
      var followUp := followUpQueue.HasItems();
      has := steering || followUp;
    }

    /** reset(): refused while a run is active. */
    method Reset() returns (accepted: bool)
      requires if activeRun then Valid() else Idle()
      modifies this, steeringQueue, followUpQueue
      ensures accepted <==> !old(activeRun)
      ensures !accepted ==> Valid() && messages == old(messages)
      ensures accepted ==> Idle() && messages == [] && steeringQueue.messages == [] && followUpQueue.messages == []
    {
      if activeRun {
        return false;
      }
      messages, streamingMessage := [], None;
      followUpQueue.Clear();
      steeringQueue.Clear();
      aborted := false;
      BeginHistory([], Prompts, steeringQueue.taken, followUpQueue.taken);
      accepted := true;
    }
  }
}
