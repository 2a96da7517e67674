/** What one run of the agent loop may do, as an automaton over its actions: the events it emits, the model
    calls, tool executions and queue polls it makes; what the model, the tools and the hooks answer; and what
    the rest of the program does meanwhile.

    A tool call is named by its position in the assistant message. */
module AgentProtocol {
  import opened Results

  datatype StopReason = Pending | Stop | Length | ToolUse | Error | Aborted | Deferred

  datatype ToolCall = ToolCall(id: string, name: string)

  datatype Message =
    | User(id: nat)
    | Assistant(id: nat, stopReason: StopReason, toolCalls: seq<ToolCall>)
    | ToolResult(toolCallId: string, isError: bool)

  datatype Event =
    | AgentStart
    | TurnStart
    | MessageStart(message: Message)
    | MessageUpdate(message: Message)
    | MessageEnd(message: Message)
    | ToolStart(call: nat)
    | ToolUpdate(call: nat)
    | ToolEnd(call: nat, terminate: bool, isError: bool)
    | TurnEnd(message: Message, toolResults: seq<Message>)
    | AgentEnd(messages: seq<Message>)

  datatype Source = Prompts | Steering | FollowUps

  datatype Mode = Truncated | Sequential | Parallel

  datatype QueueMode = All | OneAtATime

  datatype Queue = Queue(messages: seq<Message>, mode: QueueMode)

  datatype StreamEvent = Start(id: nat) | Delta(id: nat) | Finish

  /** What the look for the tool, the validation of its arguments and the hook before it say of a call. */
  datatype Verdict = Passes | Blocks(terminate: bool)

  datatype Action =
    | Emit(event: Event)
    | Poll(source: Source, drained: seq<Message>)
    | CallModel(context: seq<Message>, state: seq<Message>)
    | BeginBatch(mode: Mode)
    | Execute(call: nat)
    // the answers that the loop gets: from the model's stream, from the tools, and from the hooks
    | Streamed(streamEvent: StreamEvent)
    | Answered(message: Message)
    | Checked(call: nat, verdict: Verdict)
    | CalledBack(call: nat)
    | Returned(call: nat)
    | Finalized(call: nat, terminate: bool, isError: bool)
    | Decide(replacesContext: bool, stop: bool)
    // from outside the loop: the run is aborted, the agent's messages are assigned, the queues are used
    | Abort
    | Assign(messages: seq<Message>)
    | Enqueue(queue: Source, message: Message)
    | ClearQueue(queue: Source)
    | SetMode(queue: Source, queueMode: QueueMode)

  datatype Position = Before | Started | InTurn | Between | After

  /** A call is checked, and then refused or executed; the tool returns, and the hook after it has the last word. */
  datatype ToolPhase =
    | Running
    | Refused(verdict: Verdict, terminate: bool)
    | Prepared
    | Executing
    | Finishing
    | Finished(terminate: bool, isError: bool)
    | Ended(terminate: bool, isError: bool)

  /** The transcript of the run, and what waits to be taken into it. */
  datatype Transcript = Transcript(
    ended: seq<Message>,
    open: Option<Message>,
    pending: seq<Message>,
    source: Source,
    // what was taken from each queue
    steered: seq<Message>,
    followed: seq<Message>,
    // how many turns have ended
    turns: nat)

  /** `due`: the event that what the model or a tool has just said calls for; `result`: the stream's result. */
  datatype Turn = Turn(called: bool, due: Option<Event>, result: Option<Message>, answer: Option<Message>,
                       mode: Option<Mode>, tools: seq<ToolPhase>, results: seq<Message>)

  /** What decides how it goes on after a turn. `dry`: the follow-up queue was polled and was empty. */
  datatype Flow = Flow(polled: bool, hasMore: bool, decided: bool, stop: bool, dry: bool)

  /** `overridden`: the agent's copy of the transcript, once it was assigned during the run; `skips`: the first
      steering poll is skipped. */
  datatype Scan = Scan(position: Position, log: Transcript, turn: Turn, flow: Flow, replaced: bool, aborted: bool,
                       overridden: Option<seq<Message>>, steering: Queue, followUps: Queue, skips: bool)

  const NEW_TURN := Turn(false, None, None, None, None, [], [])

  /** A run on prompts that were drained from the steering queue does not poll that queue at once again. */
  function Initial(prompts: seq<Message>, source: Source, steering: Queue, followUps: Queue): Scan {
    Scan(Before, Transcript([], None, prompts, source, [], [], 0), NEW_TURN, Flow(false, false, false, false, false), false, false,
         None, steering, followUps, source == Steering)
  }

  predicate Failed(m: Message) {
    m.Assistant? && (m.stopReason == Error || m.stopReason == Aborted)
  }

  // ---------------------------------------------------------------------------------------
  // Which actions may come when

  predicate Quiet(s: Scan) {
    s.position == InTurn && s.log.open.None? && s.turn.due.None?
  }

  /** The message of a stream as far as it has come. */
  function PartialOf(id: nat): Message {
    Assistant(id, Pending, [])
  }

  /** What a drain takes from the queue. */
  function Take(q: Queue): seq<Message> {
    if q.mode == All || q.messages == [] then q.messages else [q.messages[0]]
  }

  /** The action comes from outside the loop. */
  predicate Aside(a: Action) {
    a == Abort || a.Assign? || a.Enqueue? || a.ClearQueue? || a.SetMode?
  }

  /** The agent's own copy of the transcript. */
  function AgentState(before: seq<Message>, s: Scan): seq<Message> {
    if s.overridden.Some? then s.overridden.value else before + s.log.ended
  }

  /** A message that waits is taken into the transcript before the model is called. */
  predicate MayInject(s: Scan, m: Message) {
    s.position == InTurn && !s.turn.called && s.log.pending != [] && m == s.log.pending[0]
  }

  predicate MayAnswer(s: Scan, m: Message) {
    s.position == InTurn && s.turn.called && s.turn.answer.None? && m.Assistant?
  }

  predicate IsResultOf(m: Message, answer: Message, k: nat) {
    answer.Assistant? && k < |answer.toolCalls| && m.ToolResult? && m.toolCallId == answer.toolCalls[k].id
  }

  /** Results come in the order of the calls, each after its tool call has ended; those of a parallel batch after all
      its calls have. */
  predicate MayReport(s: Scan, m: Message) {
    && s.position == InTurn && s.turn.called && s.turn.answer.Some? && s.turn.due.None?
    && |s.turn.results| < |s.turn.tools| && s.turn.tools[|s.turn.results|].Ended?
    && (s.turn.mode == Some(Parallel) ==> AllEnded(s.turn.tools))
    && IsResultOf(m, s.turn.answer.value, |s.turn.results|) && m.isError == s.turn.tools[|s.turn.results|].isError
  }

  predicate MayAdd(s: Scan, m: Message) {
    MayInject(s, m) || MayAnswer(s, m) || MayReport(s, m)
  }

  /** What is emitted of the model's answer is what its stream calls for. */
  predicate AsDue(s: Scan, e: Event)
    requires e.MessageStart? || e.MessageUpdate? || e.MessageEnd?
  {
    MayAnswer(s, e.message) ==> s.turn.due == Some(e)
  }

  predicate AllEnded(tools: seq<ToolPhase>) {
    forall i :: 0 <= i < |tools| ==> tools[i].Ended?
  }

  predicate AllAsk(tools: seq<ToolPhase>) {
    forall i :: 0 <= i < |tools| ==> tools[i].Ended? && tools[i].terminate
  }

  /** In a parallel batch no tool event comes after the first result; in the others each call is finished,
      with its result, before the next one starts. */
  predicate InTool(s: Scan, i: nat) {
    && Quiet(s) && s.turn.mode.Some?
    && (if s.turn.mode == Some(Parallel) then s.turn.results == [] else |s.turn.results| == i)
  }

  predicate MayStartTool(s: Scan, i: nat) {
    && InTool(s, i) && i == |s.turn.tools| && (s.aborted && s.turn.mode != Some(Truncated) ==> i == 0)
    && s.turn.answer.Some? && s.turn.answer.value.Assistant? && i < |s.turn.answer.value.toolCalls|
  }

  predicate MayBegin(s: Scan, mode: Mode) {
    && Quiet(s) && s.turn.mode.None? && s.turn.answer.Some? && s.turn.answer.value.Assistant?
    && !Failed(s.turn.answer.value)
    && (mode == Truncated <==> s.turn.answer.value.stopReason == Length)
  }

  predicate MayEndTurn(s: Scan, m: Message, results: seq<Message>) {
    && Quiet(s) && s.turn.answer == Some(m) && m.Assistant?
    && results == s.turn.results && |results| == |s.turn.tools| && AllEnded(s.turn.tools)
    && (Failed(m) ==> s.turn.mode.None? && results == [])
    && (!Failed(m) && m.toolCalls != [] ==> s.turn.mode.Some? && results != [] && (|results| == |m.toolCalls| || s.aborted))
  }

  predicate LastFailed(s: Scan) {
    s.turn.answer.Some? && Failed(s.turn.answer.value)
  }

  predicate MayEnd(s: Scan) {
    s.position == Between && s.log.open.None? && s.log.pending == [] && (LastFailed(s) || s.flow.stop || s.flow.dry)
  }

  predicate MayStartTurn(s: Scan) {
    s.position == Started
    || (s.position == Between && s.flow.polled && !s.flow.dry && (s.flow.hasMore || s.log.pending != []))
  }

  predicate MayCall(before: seq<Message>, s: Scan, context: seq<Message>, state: seq<Message>) {
    && Quiet(s) && s.flow.polled && !s.turn.called && s.log.pending == []
    && state == AgentState(before, s)
    && (!s.replaced ==> context == before + s.log.ended)
  }

  /** Steering is polled before the first model call and after each turn that goes on. */
  predicate MaySteer(s: Scan) {
    && !s.flow.polled && s.log.pending == []
    && ((Quiet(s) && !s.turn.called) || (s.position == Between && s.flow.decided && !s.flow.stop))
  }

  /** Follow-ups are polled after a steering poll that came back empty, with no tool calls left to continue. */
  predicate MayFollowUp(s: Scan) {
    s.position == Between && s.flow.polled && s.log.pending == [] && !s.flow.hasMore && !s.flow.dry
  }

  /** A call ends as it was refused or as the hook after it has said; a truncated one ends as an error. */
  predicate MayEndTool(s: Scan, i: nat, terminate: bool, isError: bool) {
    && InTool(s, i) && i < |s.turn.tools|
    && (|| (s.turn.tools[i].Refused? && s.turn.tools[i].terminate == terminate && isError)
        || s.turn.tools[i] == Finished(terminate, isError)
        || (s.turn.mode == Some(Truncated) && s.turn.tools[i] == Running && !terminate && isError))
  }

  /** The model's stream goes on. It starts its message at most once. */
  predicate MayStream(s: Scan, e: StreamEvent) {
    && s.position == InTurn && s.turn.called && s.turn.result.None? && s.turn.due.None? && s.turn.answer.None?
    && (e.Start? ==> s.log.open.None?)
  }

  predicate MayGiveAnswer(s: Scan, m: Message) {
    s.position == InTurn && s.turn.called && s.turn.result.None? && s.turn.due.None? && s.turn.answer.None? && m.Assistant?
  }

  /** A tool may call back as long as it likes. */
  predicate MayCallBack(s: Scan, i: nat) {
    && Quiet(s) && s.turn.mode.Some? && i < |s.turn.tools|
    && !s.turn.tools[i].Running? && !s.turn.tools[i].Refused? && !s.turn.tools[i].Prepared?
  }

  predicate ToolIs(s: Scan, i: nat, phase: ToolPhase) {
    InTool(s, i) && i < |s.turn.tools| && s.turn.tools[i] == phase
  }

  predicate EventAllowed(s: Scan, e: Event) {
    match e
    case AgentStart => s.position == Before
    case TurnStart => MayStartTurn(s)
    case MessageStart(m) => s.log.open.None? && MayAdd(s, m) && AsDue(s, e)
    case MessageUpdate(m) => s.log.open.Some? && MayAnswer(s, m) && AsDue(s, e)
    case MessageEnd(m) => s.log.open.Some? && MayAdd(s, m) && AsDue(s, e) && (s.log.open == Some(m) || MayAnswer(s, m))
    case ToolStart(i) => MayStartTool(s, i)
    case ToolUpdate(i) => s.position == InTurn && s.log.open.None? && s.turn.mode.Some? && s.turn.due == Some(e)
    case ToolEnd(i, terminate, isError) => MayEndTool(s, i, terminate, isError)
    case TurnEnd(m, results) => MayEndTurn(s, m, results)
    case AgentEnd(messages) => MayEnd(s) && messages == s.log.ended
  }

  /** `before` is the transcript before the run. */
  predicate Allowed(before: seq<Message>, s: Scan, a: Action) {
    match a
    case Emit(e) => EventAllowed(s, e)
    case Poll(source, drained) =>
      if source == Steering then MaySteer(s) && drained == if s.skips && Quiet(s) then [] else Take(s.steering)
      else source == FollowUps && MayFollowUp(s) && drained == Take(s.followUps)
    case CallModel(context, state) => MayCall(before, s, context, state)
    case BeginBatch(mode) => MayBegin(s, mode)
    case Execute(i) => ToolIs(s, i, Prepared)
    case Streamed(e) => MayStream(s, e)
    case Answered(m) => MayGiveAnswer(s, m)
    case Checked(i, _) => ToolIs(s, i, Running) && s.turn.mode != Some(Truncated)
    case CalledBack(i) => MayCallBack(s, i)
    case Returned(i) => ToolIs(s, i, Executing)
    case Finalized(i, _, _) => ToolIs(s, i, Finishing)
    case Decide(_, _) => s.position == Between && !s.flow.decided && !LastFailed(s)
    case Abort => true
    case Assign(_) => true
    case Enqueue(queue, _) => queue != Prompts
    case ClearQueue(queue) => queue != Prompts
    case SetMode(queue, _) => queue != Prompts
  }

  // ---------------------------------------------------------------------------------------
  // What they lead to

  function NextPosition(s: Scan, a: Action): Position {
    if !a.Emit? then s.position
    else match a.event
      case AgentStart => Started
      case TurnStart => InTurn
      case TurnEnd(_, _) => Between
      case AgentEnd(_) => After
      case _ => s.position
  }

  function Add(s: Scan, m: Message): Transcript {
    var added := s.log.(ended := s.log.ended + [m], open := None);
    if s.turn.called || s.log.pending == [] then added
    else
      added.(pending := s.log.pending[1..],
             steered := if s.log.source == Steering then s.log.steered + [m] else s.log.steered,
             followed := if s.log.source == FollowUps then s.log.followed + [m] else s.log.followed)
  }

  function NextLog(s: Scan, a: Action): Transcript {
    match a
    case Poll(source, drained) => s.log.(pending := drained, source := source)
    case Emit(e) => (
      match e
      case MessageStart(m) => s.log.(open := Some(m))
      case MessageUpdate(m) => s.log.(open := Some(m))
      case MessageEnd(m) => Add(s, m)
      case TurnEnd(_, _) => s.log.(turns := s.log.turns + 1)
      case _ => s.log)
    case _ => s.log
  }

  function SetTool(turn: Turn, i: nat, phase: ToolPhase): Turn {
    if i < |turn.tools| then turn.(tools := turn.tools[i := phase]) else turn
  }

  /** What is due after a message of the model's has started. */
  function DueAfterStart(turn: Turn, m: Message): Option<Event> {
    if turn.result == Some(m) then Some(MessageEnd(m)) else None
  }

  function DueOfStream(s: Scan, e: StreamEvent): Option<Event> {
    match e
    case Start(id) => Some(MessageStart(PartialOf(id)))
    case Delta(id) => if s.log.open.Some? then Some(MessageUpdate(PartialOf(id))) else None
    case Finish => None
  }

  /** Nothing is prepared once the run was aborted. */
  function AfterCheck(s: Scan, verdict: Verdict): ToolPhase {
    if s.aborted then Refused(verdict, false) else if verdict.Passes? then Prepared else Refused(verdict, verdict.terminate)
  }

  function NextTurn(s: Scan, a: Action): Turn {
    match a
    case CallModel(_, _) => s.turn.(called := true)
    case BeginBatch(mode) => s.turn.(mode := Some(mode))
    case Execute(i) => SetTool(s.turn, i, Executing)
    case Streamed(e) => s.turn.(due := DueOfStream(s, e))
    case Answered(m) => s.turn.(result := Some(m), due := Some(if s.log.open.Some? then MessageEnd(m) else MessageStart(m)))
    case Checked(i, verdict) => SetTool(s.turn, i, AfterCheck(s, verdict))
    case CalledBack(i) =>
      if i < |s.turn.tools| && s.turn.tools[i] == Executing then s.turn.(due := Some(ToolUpdate(i))) else s.turn
    case Returned(i) => SetTool(s.turn, i, Finishing)
    case Finalized(i, terminate, isError) => SetTool(s.turn, i, Finished(terminate, isError))
    case Emit(e) => (
      match e
      case TurnStart => NEW_TURN
      case MessageStart(m) => if s.turn.answer.None? then s.turn.(due := DueAfterStart(s.turn, m)) else s.turn
      case MessageUpdate(_) => s.turn.(due := None)
      case MessageEnd(m) =>
        if !s.turn.called then s.turn
        else if s.turn.answer.None? then s.turn.(due := None, answer := Some(m))
        else s.turn.(results := s.turn.results + [m])
      case ToolStart(_) => s.turn.(tools := s.turn.tools + [Running])
      case ToolUpdate(_) => s.turn.(due := None)
      case ToolEnd(i, terminate, isError) => SetTool(s.turn, i, Ended(terminate, isError))
      case _ => s.turn)
    case _ => s.turn
  }

  function NextFlow(s: Scan, a: Action): Flow {
    match a
    case Poll(source, drained) =>
      if source == Steering then s.flow.(polled := true) else s.flow.(dry := drained == [])
    case Decide(_, stop) => s.flow.(decided := true, stop := stop)
    case Emit(e) =>
      if e.TurnEnd? then Flow(false, s.turn.tools != [] && !AllAsk(s.turn.tools), false, false, false) else s.flow
    case _ => s.flow
  }

  function NextAssigned(s: Scan, a: Action): Option<seq<Message>> {
    if a.Assign? then Some(a.messages)
    else if a.Emit? && a.event.MessageEnd? && s.overridden.Some? then Some(s.overridden.value + [a.event.message])
    else s.overridden
  }

  function NextQueue(q: Queue, source: Source, a: Action): Queue {
    match a
    case Enqueue(queue, m) => if queue == source then q.(messages := q.messages + [m]) else q
    case ClearQueue(queue) => if queue == source then q.(messages := []) else q
    case SetMode(queue, mode) => if queue == source then q.(mode := mode) else q
    case Poll(polled, drained) =>
      if polled == source && |drained| <= |q.messages| then q.(messages := q.messages[|drained|..]) else q
    case _ => q
  }

  function Next(s: Scan, a: Action): Scan {
    Scan(NextPosition(s, a), NextLog(s, a), NextTurn(s, a), NextFlow(s, a),
         s.replaced || (a.Decide? && a.replacesContext), s.aborted || a.Abort?, NextAssigned(s, a),
         NextQueue(s.steering, Steering, a), NextQueue(s.followUps, FollowUps, a), s.skips)
  }

  /** The state after all the actions. */
  function Fold(s: Scan, actions: seq<Action>): Scan {
    if actions == [] then s else Next(Fold(s, actions[..|actions| - 1]), actions[|actions| - 1])
  }

  predicate Accepted(before: seq<Message>, s: Scan, actions: seq<Action>) {
    actions == []
    || (Accepted(before, s, actions[..|actions| - 1])
        && Allowed(before, Fold(s, actions[..|actions| - 1]), actions[|actions| - 1]))
  }
}
