/** What acceptance by the automaton of AgentProtocol means for the actions of a run. */
module AgentRuns {
  import opened Results
  import opened AgentProtocol

  lemma {:induction false} PrefixAccepted(before: seq<Message>, s: Scan, actions: seq<Action>, k: nat)
    requires Accepted(before, s, actions) && k <= |actions|
    ensures Accepted(before, s, actions[..k])
  {
    hide Allowed, Fold;
    if k < |actions| {
      var front := actions[..|actions| - 1];
      assert front[..k] == actions[..k];
      PrefixAccepted(before, s, front, k);
    } else {
      assert actions[..k] == actions;
    }
  }

  /** The state after the first k actions. */
  function At(s: Scan, actions: seq<Action>, k: nat): Scan
    requires k <= |actions|
  {
    Fold(s, actions[..k])
  }

  lemma AtStart(s: Scan, actions: seq<Action>)
    ensures At(s, actions, 0) == s
  {
  }

  lemma StepAt(before: seq<Message>, s: Scan, actions: seq<Action>, k: nat)
    requires Accepted(before, s, actions) && k < |actions|
    ensures Allowed(before, At(s, actions, k), actions[k])
    ensures At(s, actions, k + 1) == Next(At(s, actions, k), actions[k])
  {
    hide Allowed, Next;
    PrefixAccepted(before, s, actions, k + 1);
    var front := actions[..k + 1];
    assert front[..|front| - 1] == actions[..k] && front[|front| - 1] == actions[k];
  }

  // ---------------------------------------------------------------------------------------
  // The transcript

  function EndedIn(actions: seq<Action>): seq<Message> {
    if actions == [] then []
    else
      var last := actions[|actions| - 1];
      EndedIn(actions[..|actions| - 1]) + (if last.Emit? && last.event.MessageEnd? then [last.event.message] else [])
  }

  predicate ReplacesContext(actions: seq<Action>) {
    exists k :: 0 <= k < |actions| && actions[k].Decide? && actions[k].replacesContext
  }

  lemma ReplacesOneMore(actions: seq<Action>)
    requires actions != []
    ensures var front, last := actions[..|actions| - 1], actions[|actions| - 1];
            ReplacesContext(actions) <==> ReplacesContext(front) || (last.Decide? && last.replacesContext)
  {
    var front := actions[..|actions| - 1];
    if k :| 0 <= k < |front| && front[k].Decide? && front[k].replacesContext {
      assert actions[k].Decide? && actions[k].replacesContext;
    }
  }

  lemma EndsInLog(s: Scan, a: Action)
    ensures Next(s, a).log.ended == s.log.ended + if a.Emit? && a.event.MessageEnd? then [a.event.message] else []
    ensures Next(s, a).replaced <==> s.replaced || (a.Decide? && a.replacesContext)
  {
  }

  lemma {:induction false} EndedFollows(s: Scan, actions: seq<Action>)
    ensures Fold(s, actions).log.ended == s.log.ended + EndedIn(actions)
    ensures !s.replaced ==> (Fold(s, actions).replaced <==> ReplacesContext(actions))
  {
    if actions != [] {
      var front, last := actions[..|actions| - 1], actions[|actions| - 1];
      EndedFollows(s, front);
      ReplacesOneMore(actions);
      EndsInLog(Fold(s, front), last);
      hide Next, ReplacesContext;
    }
  }

  function StateAfter(before: seq<Message>, actions: seq<Action>): seq<Message> {
    if actions == [] then before
    else
      var last, front := actions[|actions| - 1], actions[..|actions| - 1];
      if last.Assign? then last.messages
      else StateAfter(before, front) + (if last.Emit? && last.event.MessageEnd? then [last.event.message] else [])
  }

  predicate AssignsState(actions: seq<Action>) {
    exists k :: 0 <= k < |actions| && actions[k].Assign?
  }

  lemma AssignsOneMore(actions: seq<Action>)
    requires actions != []
    ensures AssignsState(actions) <==> AssignsState(actions[..|actions| - 1]) || actions[|actions| - 1].Assign?
  {
    var front := actions[..|actions| - 1];
    if k :| 0 <= k < |front| && front[k].Assign? {
      assert actions[k].Assign?;
    }
  }

  lemma StateStep(before: seq<Message>, s: Scan, a: Action)
    ensures AgentState(before, Next(s, a)) ==
            if a.Assign? then a.messages
            else AgentState(before, s) + if a.Emit? && a.event.MessageEnd? then [a.event.message] else []
    ensures Next(s, a).overridden.None? <==> s.overridden.None? && !a.Assign?
  {
  }

  lemma {:induction false} StateFollows(before: seq<Message>, s: Scan, actions: seq<Action>)
    requires s.overridden.None? && s.log.ended == []
    ensures AgentState(before, Fold(s, actions)) == StateAfter(before, actions)
    ensures Fold(s, actions).overridden.None? <==> !AssignsState(actions)
    ensures !AssignsState(actions) ==> StateAfter(before, actions) == before + EndedIn(actions)
  {
    if actions != [] {
      var front, last := actions[..|actions| - 1], actions[|actions| - 1];
      StateFollows(before, s, front);
      AssignsOneMore(actions);
      StateStep(before, Fold(s, front), last);
      hide Next, AssignsState, AgentState;
    }
  }

  lemma CallAndEnd(before: seq<Message>, s: Scan, a: Action)
    requires Allowed(before, s, a)
    ensures a.CallModel? ==> a.state == AgentState(before, s) && (!s.replaced ==> a.context == before + s.log.ended)
    ensures a.Emit? && a.event.AgentEnd? ==> a.event.messages == s.log.ended
  {
  }

  /** At every model call the agent's state is the old transcript followed by the messages that ended so far,
      in order, and so is the loop's context unless a hook has replaced it. The run ends with exactly those. */
  lemma TranscriptsAgree(before: seq<Message>, prompts: seq<Message>, source: Source, steering: Queue, followUps: Queue,
      actions: seq<Action>, k: nat)
    requires Accepted(before, Initial(prompts, source, steering, followUps), actions) && k < |actions|
    ensures actions[k].CallModel? ==>
              && actions[k].state == StateAfter(before, actions[..k])
              && (!AssignsState(actions[..k]) ==> actions[k].state == before + EndedIn(actions[..k]))
              && (!ReplacesContext(actions[..k]) ==> actions[k].context == before + EndedIn(actions[..k]))
    ensures actions[k].Emit? && actions[k].event.AgentEnd? ==> actions[k].event.messages == EndedIn(actions[..k])
  {
    hide Allowed, Next, Fold, EndedIn, ReplacesContext, Accepted, StateAfter, AssignsState, AgentState;
    var s := Initial(prompts, source, steering, followUps);
    assert [] + EndedIn(actions[..k]) == EndedIn(actions[..k]);
    StepAt(before, s, actions, k);
    CallAndEnd(before, At(s, actions, k), actions[k]);
    StateFollows(before, s, actions[..k]);
    EndedFollows(s, actions[..k]);
  }

  // ---------------------------------------------------------------------------------------
  // The queues

  function DrainedIn(actions: seq<Action>, source: Source): seq<Message> {
    if actions == [] then []
    else
      var last := actions[|actions| - 1];
      DrainedIn(actions[..|actions| - 1], source) + (if last.Poll? && last.source == source then last.drained else [])
  }

  /** Drained from the source, and not yet in the transcript. */
  function InHand(log: Transcript, source: Source): seq<Message> {
    if log.source == source then log.pending else []
  }

  function Injected(log: Transcript, source: Source): seq<Message> {
    if source == Steering then log.steered else if source == FollowUps then log.followed else []
  }

  lemma InitialInHand(prompts: seq<Message>, source: Source, steering: Queue, followUps: Queue, queue: Source)
    requires queue != Prompts
    ensures var log := Initial(prompts, source, steering, followUps).log;
            Injected(log, queue) + InHand(log, queue) == if source == queue then prompts else []
  {
  }

  lemma StepConserves(before: seq<Message>, s: Scan, a: Action, source: Source)
    requires Allowed(before, s, a) && source != Prompts
    ensures var t := NextLog(s, a);
            Injected(t, source) + InHand(t, source) ==
            Injected(s.log, source) + InHand(s.log, source) + (if a.Poll? && a.source == source then a.drained else [])
  {
    hide MayCall, MayBegin, MayAdd, MayStartTurn, MayEndTurn, MayStartTool, InTool, MayEnd, Quiet, Add;
    if a.Emit? && a.event.MessageEnd? {
      EndConserves(s, a.event.message, source);
    }
  }

  lemma EndConserves(s: Scan, m: Message, source: Source)
    requires s.log.open.Some? && MayAdd(s, m) && source != Prompts
    ensures Injected(Add(s, m), source) + InHand(Add(s, m), source) == Injected(s.log, source) + InHand(s.log, source)
  {
    if s.log.pending != [] {
      TakeFirst(s.log.steered, s.log.pending);
      TakeFirst(s.log.followed, s.log.pending);
    }
  }

  lemma TakeFirst(a: seq<Message>, pending: seq<Message>)
    requires pending != []
    ensures a + [pending[0]] + pending[1..] == a + pending
  {
    assert pending == [pending[0]] + pending[1..];
  }

  lemma {:induction false} DrainedFollows(before: seq<Message>, s: Scan, actions: seq<Action>, source: Source)
    requires Accepted(before, s, actions) && source != Prompts
    ensures var t := Fold(s, actions).log;
            Injected(t, source) + InHand(t, source) == Injected(s.log, source) + InHand(s.log, source) + DrainedIn(actions, source)
  {
    hide Allowed, Injected, InHand, NextLog, NextTurn, NextFlow, NextPosition;
    if actions != [] {
      var front, last := actions[..|actions| - 1], actions[|actions| - 1];
      DrainedFollows(before, s, front, source);
      StepConserves(before, Fold(s, front), last, source);
    }
  }

  /** The messages of a are among those of b, in the same order. */
  predicate IsSubsequence(a: seq<Message>, b: seq<Message>) {
    a == []
    || (b != []
        && (IsSubsequence(a, b[..|b| - 1])
            || (a[|a| - 1] == b[|b| - 1] && IsSubsequence(a[..|a| - 1], b[..|b| - 1]))))
  }

  lemma SubsequenceGrows(a: seq<Message>, b: seq<Message>, m: Message)
    requires IsSubsequence(a, b)
    ensures IsSubsequence(a, b + [m]) && IsSubsequence(a + [m], b + [m])
  {
    assert (b + [m])[..|b|] == b && (a + [m])[..|a|] == a;
  }

  /** What was injected from either queue is in the transcript, in order; and no message there stands for two. */
  predicate InjectedOk(log: Transcript) {
    && IsSubsequence(log.steered, log.ended) && IsSubsequence(log.followed, log.ended)
    && multiset(log.steered) + multiset(log.followed) <= multiset(log.ended)
  }

  lemma InitialInjected(prompts: seq<Message>, source: Source, steering: Queue, followUps: Queue)
    ensures InjectedOk(Initial(prompts, source, steering, followUps).log)
  {
  }

  lemma AddKeepsOrder(s: Scan, m: Message)
    requires InjectedOk(s.log)
    ensures InjectedOk(Add(s, m))
  {
    SubsequenceGrows(s.log.steered, s.log.ended, m);
    SubsequenceGrows(s.log.followed, s.log.ended, m);
    hide IsSubsequence;
  }

  lemma {:induction false} InjectedInOrder(s: Scan, actions: seq<Action>)
    requires InjectedOk(s.log)
    ensures InjectedOk(Fold(s, actions).log)
  {
    if actions != [] {
      var front, last := actions[..|actions| - 1], actions[|actions| - 1];
      InjectedInOrder(s, front);
      if last.Emit? && last.event.MessageEnd? {
        AddKeepsOrder(Fold(s, front), last.event.message);
      }
    }
    hide IsSubsequence, Add, NextPosition, NextTurn, NextFlow;
  }

  /** The prompts are in the transcript, or no model was called before them. */
  predicate PromptsOk(s: Scan, prompts: seq<Message>) {
    prompts <= s.log.ended || (s.log.ended + s.log.pending == prompts && !s.turn.called)
  }

  lemma StepKeepsPrompts(before: seq<Message>, s: Scan, a: Action, prompts: seq<Message>)
    requires Allowed(before, s, a) && PromptsOk(s, prompts)
    ensures PromptsOk(Next(s, a), prompts)
  {
    hide NextFlow, MayStartTool, InTool, MayEnd;
    if s.log.pending != [] {
      TakeFirst(s.log.ended, s.log.pending);
    }
  }

  lemma {:induction false} PromptsComeFirst(before: seq<Message>, s: Scan, actions: seq<Action>, prompts: seq<Message>)
    requires Accepted(before, s, actions) && PromptsOk(s, prompts)
    ensures PromptsOk(Fold(s, actions), prompts)
  {
    if actions != [] {
      var front, last := actions[..|actions| - 1], actions[|actions| - 1];
      PromptsComeFirst(before, s, front, prompts);
      StepKeepsPrompts(before, Fold(s, front), last, prompts);
    }
    hide Next, Allowed, PromptsOk;
  }

  /** What waited in the beginning comes first, once nothing waits, and what was injected since is in order. */
  lemma TranscriptIsWhole(before: seq<Message>, s: Scan, actions: seq<Action>)
    requires Accepted(before, s, actions) && InjectedOk(s.log) && s.log.ended == [] && !s.turn.called
    ensures var log, ended := Fold(s, actions).log, EndedIn(actions);
            && log.ended == ended && IsSubsequence(log.steered, ended) && IsSubsequence(log.followed, ended)
            && multiset(log.steered) + multiset(log.followed) <= multiset(ended)
            && (log.pending == [] ==> s.log.pending <= ended)
  {
    hide Fold, EndedIn, Accepted, IsSubsequence;
    assert s.log.ended + s.log.pending == s.log.pending && [] + EndedIn(actions) == EndedIn(actions);
    EndedFollows(s, actions);
    InjectedInOrder(s, actions);
    PromptsComeFirst(before, s, actions, s.log.pending);
    var log := Fold(s, actions).log;
    assert log.ended + [] == log.ended;
  }

  /** When a run has ended, its transcript begins with the prompts, and all it drained from a queue is in it, in
      order. */
  lemma NothingDrainedIsLost(before: seq<Message>, prompts: seq<Message>, source: Source, steering: Queue, followUps: Queue,
      actions: seq<Action>, queue: Source)
    requires Accepted(before, Initial(prompts, source, steering, followUps), actions) && queue != Prompts
    requires Fold(Initial(prompts, source, steering, followUps), actions).position == After
    ensures prompts <= EndedIn(actions)
    ensures IsSubsequence((if source == queue then prompts else []) + DrainedIn(actions, queue), EndedIn(actions))
    ensures Injected(Fold(Initial(prompts, source, steering, followUps), actions).log, queue) ==
            (if source == queue then prompts else []) + DrainedIn(actions, queue)
  {
    var s := Initial(prompts, source, steering, followUps);
    DrainedFollows(before, s, actions, queue);
    EndHoldsNothing(before, s, actions);
    TranscriptIsWhole(before, s, actions);
    hide Accepted, Fold, DrainedIn, EndedIn, IsSubsequence;
    var given := InHand(s.log, queue);
    assert Injected(s.log, queue) + given == given;
    var after := Fold(s, actions).log;
    assert Injected(after, queue) + InHand(after, queue) == Injected(after, queue);
  }

  lemma {:induction false} EndHoldsNothing(before: seq<Message>, s: Scan, actions: seq<Action>)
    requires Accepted(before, s, actions) && s.position != After && Fold(s, actions).position == After
    ensures Fold(s, actions).log.pending == []
  {
    if actions != [] {
      var front, last := actions[..|actions| - 1], actions[|actions| - 1];
      if Fold(s, front).position == After {
        EndHoldsNothing(before, s, front);
      }
      StepAtTheEnds(before, Fold(s, front), last);
    }
    hide Next, Allowed;
  }

  lemma StepAtTheEnds(before: seq<Message>, s: Scan, a: Action)
    requires Allowed(before, s, a)
    ensures s.position == After ==> Aside(a) && Next(s, a).position == After && Next(s, a).log == s.log
    ensures Next(s, a).position == After && s.position != After ==>
              a.Emit? && a.event.AgentEnd? && Next(s, a).log.pending == []
    ensures a.Emit? && a.event.AgentEnd? ==> Next(s, a).position == After
    ensures s.position == Before ==> Aside(a) || a == Emit(AgentStart)
    ensures a.Emit? && a.event.AgentStart? ==> s.position == Before
    ensures Next(s, a).position == Before ==> s.position == Before && Aside(a)
  {
  }

  // ---------------------------------------------------------------------------------------
  // The grammar of the events

  lemma {:induction false} PositionsLast(before: seq<Message>, s: Scan, actions: seq<Action>, j: nat, k: nat)
    requires Accepted(before, s, actions) && j <= k <= |actions|
    ensures At(s, actions, j).position == After ==> At(s, actions, k).position == After
    ensures At(s, actions, k).position == Before ==> At(s, actions, j).position == Before
    decreases k - j
  {
    hide At, Allowed, Next;
    if j < k {
      PositionsLast(before, s, actions, j, k - 1);
      StepAt(before, s, actions, k - 1);
      StepAtTheEnds(before, At(s, actions, k - 1), actions[k - 1]);
    }
  }

  /** agent_start is the first event and there is no other; agent_end is the last, and only an abort or
      an assignment of the agent's messages can follow it. */
  lemma RunIsBracketed(before: seq<Message>, prompts: seq<Message>, source: Source, steering: Queue, followUps: Queue,
      actions: seq<Action>, j: nat, k: nat)
    requires Accepted(before, Initial(prompts, source, steering, followUps), actions) && j < k < |actions|
    ensures actions[j].Emit? && actions[j].event.AgentEnd? ==> Aside(actions[k])
    ensures actions[k].Emit? && actions[k].event.AgentStart? ==> Aside(actions[j])
    ensures actions[0] == Emit(AgentStart) || Aside(actions[0])
  {
    var s := Initial(prompts, source, steering, followUps);
    hide At, Allowed, Next, Accepted;
    AtStart(s, actions);
    StepAt(before, s, actions, j);
    StepAt(before, s, actions, k);
    StepAt(before, s, actions, 0);
    StepAtTheEnds(before, At(s, actions, j), actions[j]);
    StepAtTheEnds(before, At(s, actions, k), actions[k]);
    StepAtTheEnds(before, At(s, actions, 0), actions[0]);
    PositionsLast(before, s, actions, j + 1, k);
  }

  // ---------------------------------------------------------------------------------------
  // What holds between any two actions

  predicate AnswerOk(turn: Turn) {
    && (turn.answer.Some? ==> turn.called && turn.answer.value.Assistant?)
    && (turn.mode.Some? ==> turn.answer.Some? && !Failed(turn.answer.value)
                            && (turn.mode == Some(Truncated) <==> turn.answer.value.stopReason == Length))
    && (turn.tools != [] ==> turn.mode.Some? && |turn.tools| <= |turn.answer.value.toolCalls|)
    && (turn.answer.Some? ==> turn.result == turn.answer)
    && (turn.result.Some? ==> turn.called)
  }

  /** What is due has a reason. */
  predicate DueOk(turn: Turn) {
    turn.due.Some? ==>
      match turn.due.value
      case MessageStart(m) => turn.called && turn.answer.None? && m.Assistant?
      case MessageUpdate(m) => turn.called && turn.answer.None? && m.Assistant?
      case MessageEnd(m) => turn.called && turn.answer.None? && m.Assistant? && turn.result == Some(m)
      case ToolUpdate(i) => turn.answer.Some? && turn.mode.Some? && i < |turn.tools| && turn.tools[i] == Executing
      case _ => false
  }

  predicate ToolsOk(turn: Turn) {
    && (turn.mode == Some(Parallel) && turn.results != [] ==> AllEnded(turn.tools))
    && (turn.mode == Some(Truncated) ==>
          forall i :: 0 <= i < |turn.tools| ==> turn.tools[i].Running? || turn.tools[i] == Ended(false, true))
  }

  predicate ResultsOk(turn: Turn) {
    && |turn.results| <= |turn.tools|
    && (turn.results != [] ==> turn.answer.Some?)
    && (forall i :: 0 <= i < |turn.results| ==> turn.tools[i].Ended? && IsResultOf(turn.results[i], turn.answer.value, i)
                                                   && turn.results[i].isError == turn.tools[i].isError)
  }

  predicate FlowOk(s: Scan) {
    && (s.position == Before || s.position == Started ==> s.turn == NEW_TURN && !s.flow.polled && !s.flow.dry && !s.flow.stop)
    && (s.position == InTurn ==> !s.flow.dry && !s.flow.stop && (s.turn.called ==> s.flow.polled))
    && (s.turn.due.Some? ==> s.position == InTurn)
    && (s.position == Between ==>
          && (s.flow.stop ==> s.flow.decided)
          && (s.flow.decided ==> !LastFailed(s))
          && (s.flow.polled ==> s.flow.decided && !s.flow.stop)
          && (s.flow.dry ==> s.flow.polled && !s.flow.hasMore)
          && (s.flow.hasMore <==> s.turn.tools != [] && !AllAsk(s.turn.tools)))
  }

  predicate ScanOk(s: Scan) {
    AnswerOk(s.turn) && DueOk(s.turn) && ToolsOk(s.turn) && ResultsOk(s.turn) && FlowOk(s) && RefusedOk(s)
  }

  /** A call is refused for what was said of it, or because the run was aborted. */
  predicate RefusedOk(s: Scan) {
    forall i :: 0 <= i < |s.turn.tools| && s.turn.tools[i].Refused? ==>
      s.turn.tools[i].verdict == Blocks(s.turn.tools[i].terminate) || (!s.turn.tools[i].terminate && s.aborted)
  }

  lemma RefusedStaysOk(before: seq<Message>, s: Scan, a: Action)
    requires Allowed(before, s, a) && RefusedOk(s)
    ensures RefusedOk(Next(s, a))
  {
    hide NextLog, NextFlow, Allowed;
  }

  lemma DueStaysOk(before: seq<Message>, s: Scan, a: Action)
    requires Allowed(before, s, a) && ScanOk(s)
    ensures DueOk(NextTurn(s, a))
  {
    hide ToolsOk, ResultsOk, FlowOk, MayStartTurn, MayEnd, MaySteer, MayFollowUp, AllEnded;
  }

  lemma ToolsStayOk(before: seq<Message>, s: Scan, a: Action)
    requires Allowed(before, s, a) && ScanOk(s)
    ensures ToolsOk(NextTurn(s, a))
  {
    hide DueOk, FlowOk, MayStartTurn, MayEnd, MaySteer, MayFollowUp;
  }

  lemma AnswerStaysOk(before: seq<Message>, s: Scan, a: Action)
    requires Allowed(before, s, a) && ScanOk(s)
    ensures AnswerOk(NextTurn(s, a))
  {
  }

  lemma ResultsStayOk(before: seq<Message>, s: Scan, a: Action)
    requires Allowed(before, s, a) && ScanOk(s)
    ensures ResultsOk(NextTurn(s, a))
  {
    hide MayCall, MayStartTurn, MayEnd, MaySteer, MayFollowUp, AllEnded;
  }

  lemma FlowStaysOk(before: seq<Message>, s: Scan, a: Action)
    requires Allowed(before, s, a) && ScanOk(s)
    ensures FlowOk(Next(s, a))
  {
    hide AnswerOk, ResultsOk, NextLog;
  }

  lemma StaysOk(before: seq<Message>, s: Scan, a: Action)
    requires Allowed(before, s, a) && ScanOk(s)
    ensures ScanOk(Next(s, a))
  {
    hide Allowed, AnswerOk, DueOk, ToolsOk, ResultsOk, FlowOk, RefusedOk;
    RefusedStaysOk(before, s, a);
    AnswerStaysOk(before, s, a);
    DueStaysOk(before, s, a);
    ToolsStayOk(before, s, a);
    ResultsStayOk(before, s, a);
    FlowStaysOk(before, s, a);
  }

  lemma {:induction false} EveryRunIsOk(before: seq<Message>, s: Scan, actions: seq<Action>, k: nat)
    requires Accepted(before, s, actions) && k <= |actions| && ScanOk(s)
    ensures ScanOk(At(s, actions, k))
  {
    hide At, Allowed, Next, ScanOk, Accepted;
    AtStart(s, actions);
    if k > 0 {
      EveryRunIsOk(before, s, actions, k - 1);
      StepAt(before, s, actions, k - 1);
      StaysOk(before, At(s, actions, k - 1), actions[k - 1]);
    }
  }

  /** No other turn starts from action j on, before action k. */
  predicate SameTurn(actions: seq<Action>, j: nat, k: nat) {
    forall l :: j <= l < k <= |actions| ==> !(actions[l].Emit? && actions[l].event.TurnStart?)
  }

  lemma TurnShrinks(actions: seq<Action>, j: nat, k: nat)
    requires j < k <= |actions| && SameTurn(actions, j, k)
    ensures SameTurn(actions, j, k - 1) && SameTurn(actions, j + 1, k) && actions[k - 1] != Emit(TurnStart)
  {
  }

  /** The action came earlier in the turn. */
  ghost predicate CameInTurn(actions: seq<Action>, a: Action, k: nat)
    requires k <= |actions|
  {
    exists j :: 0 <= j < k && actions[j] == a && SameTurn(actions, j, k)
  }

  lemma CameGrows(actions: seq<Action>, a: Action, k: nat)
    requires 0 < k <= |actions| && actions[k - 1] != Emit(TurnStart)
    requires actions[k - 1] == a || CameInTurn(actions, a, k - 1)
    ensures CameInTurn(actions, a, k)
  {
    if actions[k - 1] == a {
      assert SameTurn(actions, k - 1, k);
    } else {
      var j :| 0 <= j < k - 1 && actions[j] == a && SameTurn(actions, j, k - 1);
      assert SameTurn(actions, j, k);
    }
  }

  /** A tool event, or the execution itself, of call i. */
  predicate IsOfTool(a: Action, i: nat) {
    || (a.Emit? && (a.event.ToolStart? || a.event.ToolUpdate? || a.event.ToolEnd?) && a.event.call == i)
    || a == Execute(i)
  }

  // ---------------------------------------------------------------------------------------
  // Messages and turns are bracketed

  predicate IsMessageEnd(a: Action) {
    a.Emit? && a.event.MessageEnd?
  }

  predicate OpenInTurn(s: Scan) {
    s.log.open.Some? && s.position == InTurn
  }

  lemma OpenStays(before: seq<Message>, s: Scan, a: Action)
    requires Allowed(before, s, a) && OpenInTurn(s) && !IsMessageEnd(a)
    ensures OpenInTurn(Next(s, a))
  {
    hide NextTurn, NextFlow;
  }

  lemma {:induction false} OpenLasts(before: seq<Message>, s: Scan, actions: seq<Action>, j: nat, k: nat)
    requires Accepted(before, s, actions) && j <= k <= |actions| && OpenInTurn(At(s, actions, j))
    requires forall l :: j <= l < k ==> !IsMessageEnd(actions[l])
    ensures OpenInTurn(At(s, actions, k))
    decreases k - j
  {
    hide *;
    if j < k {
      OpenLasts(before, s, actions, j, k - 1);
      StepAt(before, s, actions, k - 1);
      OpenStays(before, At(s, actions, k - 1), actions[k - 1]);
    }
  }

  /** While a message is open, nothing but its updates and its end is emitted: no other message starts, no
      tool does anything, no model is called and no turn ends. */
  lemma MessagesNeverOverlap(before: seq<Message>, s: Scan, actions: seq<Action>, j: nat, k: nat)
    requires Accepted(before, s, actions) && j < k < |actions|
    requires actions[j].Emit? && actions[j].event.MessageStart?
    requires forall l :: j < l < k ==> !IsMessageEnd(actions[l])
    ensures actions[k].Emit? ==> actions[k].event.MessageUpdate? || actions[k].event.MessageEnd?
    ensures !actions[k].CallModel? && !actions[k].Execute? && !actions[k].BeginBatch?
  {
    hide At, Next, Allowed, Accepted;
    StepAt(before, s, actions, j);
    StepAt(before, s, actions, k);
    StartOpens(before, At(s, actions, j), actions[j]);
    OpenLasts(before, s, actions, j + 1, k);
    OnlyTheOpenOne(before, At(s, actions, k), actions[k]);
  }

  lemma StartOpens(before: seq<Message>, s: Scan, a: Action)
    requires Allowed(before, s, a) && a.Emit? && a.event.MessageStart?
    ensures OpenInTurn(Next(s, a))
  {
  }

  lemma OnlyTheOpenOne(before: seq<Message>, s: Scan, a: Action)
    requires Allowed(before, s, a) && OpenInTurn(s)
    ensures a.Emit? ==> a.event.MessageUpdate? || a.event.MessageEnd?
    ensures !a.CallModel? && !a.Execute? && !a.BeginBatch?
  {
  }

  /** The messages are one, or the same answer of the model as it grows. */
  predicate SameMessage(m: Message, n: Message) {
    m == n || (m.Assistant? && n.Assistant?)
  }

  /** The message was started at j, and none has ended since. */
  predicate StartedAt(actions: seq<Action>, m: Message, j: nat, k: nat) {
    && j < k <= |actions| && actions[j].Emit? && actions[j].event.MessageStart? && SameMessage(actions[j].event.message, m)
    && forall l :: j < l < k ==> !(actions[l].Emit? && actions[l].event.MessageEnd?)
  }

  /** Only the model's answer is open while the model answers. */
  predicate OpenOk(s: Scan) {
    s.log.open.Some? && s.turn.called && s.turn.answer.None? ==> s.log.open.value.Assistant?
  }

  lemma OpenFrom(before: seq<Message>, s: Scan, a: Action)
    requires Allowed(before, s, a) && OpenOk(s)
    ensures OpenOk(Next(s, a))
    ensures Next(s, a).log.open.Some? ==>
              || a == Emit(MessageStart(Next(s, a).log.open.value))
              || (s.log.open.Some? && SameMessage(s.log.open.value, Next(s, a).log.open.value)
                  && !(a.Emit? && (a.event.MessageStart? || a.event.MessageEnd?)))
  {
    hide NextFlow, NextPosition;
  }

  lemma NothingOpen(s: Scan)
    requires s.log.open.None?
    ensures OpenOk(s)
  {
  }

  lemma JustStarted(actions: seq<Action>, m: Message, k: nat)
    requires 0 < k <= |actions| && actions[k - 1] == Emit(MessageStart(m))
    ensures StartedAt(actions, m, k - 1, k)
  {
  }

  lemma StillStarted(actions: seq<Action>, m: Message, n: Message, j: nat, k: nat)
    requires 0 < k <= |actions| && StartedAt(actions, m, j, k - 1) && SameMessage(m, n)
    requires !(actions[k - 1].Emit? && actions[k - 1].event.MessageEnd?)
    ensures StartedAt(actions, n, j, k)
  {
  }

  lemma {:induction false} OpenStartedAt(before: seq<Message>, s: Scan, actions: seq<Action>, k: nat) returns (j: nat)
    requires Accepted(before, s, actions) && k <= |actions| && s.log.open.None?
    ensures OpenOk(At(s, actions, k))
    ensures At(s, actions, k).log.open.Some? ==> StartedAt(actions, At(s, actions, k).log.open.value, j, k)
  {
    hide At, Allowed, Next, Accepted, StartedAt, OpenOk;
    AtStart(s, actions);
    assert OpenOk(s) by {
      NothingOpen(s);
    }
    j := k;
    if k > 0 {
      var i := OpenStartedAt(before, s, actions, k - 1);
      StepAt(before, s, actions, k - 1);
      OpenFrom(before, At(s, actions, k - 1), actions[k - 1]);
      j := if actions[k - 1].Emit? && actions[k - 1].event.MessageStart? then k - 1 else i;
      if At(s, actions, k).log.open.Some? {
        var m := At(s, actions, k).log.open.value;
        if actions[k - 1] == Emit(MessageStart(m)) {
          JustStarted(actions, m, k);
        } else {
          StillStarted(actions, At(s, actions, k - 1).log.open.value, m, i, k);
        }
      }
    }
  }

  /** A message is updated or ended only after that message was started, and none has ended since. */
  lemma EndsWhatWasStarted(before: seq<Message>, s: Scan, actions: seq<Action>, k: nat) returns (j: nat)
    requires Accepted(before, s, actions) && k < |actions| && s.log.open.None?
    requires actions[k].Emit? && (actions[k].event.MessageUpdate? || actions[k].event.MessageEnd?)
    ensures StartedAt(actions, actions[k].event.message, j, k)
  {
    j := OpenStartedAt(before, s, actions, k);
    StepAt(before, s, actions, k);
    hide At, Next;
  }

  lemma InTurnStays(before: seq<Message>, s: Scan, a: Action)
    requires Allowed(before, s, a) && s.position == InTurn && !IsTurnEnd(a)
    ensures Next(s, a).position == InTurn
  {
  }

  lemma {:induction false} TurnLasts(before: seq<Message>, s: Scan, actions: seq<Action>, j: nat, k: nat)
    requires Accepted(before, s, actions) && j <= k <= |actions| && At(s, actions, j).position == InTurn
    requires forall l :: j <= l < k ==> !IsTurnEnd(actions[l])
    ensures At(s, actions, k).position == InTurn
    decreases k - j
  {
    hide *;
    if j < k {
      TurnLasts(before, s, actions, j, k - 1);
      StepAt(before, s, actions, k - 1);
      InTurnStays(before, At(s, actions, k - 1), actions[k - 1]);
    }
  }

  predicate IsTurnEnd(a: Action) {
    a.Emit? && a.event.TurnEnd?
  }

  /** No turn starts or ends from action j on, before action k. */
  predicate NoTurn(actions: seq<Action>, j: nat, k: nat) {
    forall l :: j <= l < k <= |actions| ==> actions[l] != Emit(TurnStart) && !IsTurnEnd(actions[l])
  }

  /** The last that happened to turns is that one started. */
  ghost predicate TurnOpen(actions: seq<Action>, k: nat)
    requires k <= |actions|
  {
    exists j :: 0 <= j < k && actions[j] == Emit(TurnStart) && NoTurn(actions, j + 1, k)
  }

  /** The last that happened to turns is that one ended. */
  ghost predicate TurnClosed(actions: seq<Action>, k: nat)
    requires k <= |actions|
  {
    exists j :: 0 <= j < k && IsTurnEnd(actions[j]) && NoTurn(actions, j + 1, k)
  }

  lemma TurnsGrow(actions: seq<Action>, k: nat)
    requires 0 < k <= |actions|
    ensures actions[k - 1] == Emit(TurnStart) ==> TurnOpen(actions, k)
    ensures IsTurnEnd(actions[k - 1]) ==> TurnClosed(actions, k)
    ensures actions[k - 1] != Emit(TurnStart) && !IsTurnEnd(actions[k - 1]) ==>
              && (NoTurn(actions, 0, k - 1) ==> NoTurn(actions, 0, k))
              && (TurnOpen(actions, k - 1) ==> TurnOpen(actions, k))
              && (TurnClosed(actions, k - 1) ==> TurnClosed(actions, k))
  {
    assert NoTurn(actions, k, k);
    var neither := actions[k - 1] != Emit(TurnStart) && !IsTurnEnd(actions[k - 1]);
    if neither && TurnOpen(actions, k - 1) {
      var j :| 0 <= j < k - 1 && actions[j] == Emit(TurnStart) && NoTurn(actions, j + 1, k - 1);
      assert NoTurn(actions, j + 1, k);
    }
    if neither && TurnClosed(actions, k - 1) {
      var j :| 0 <= j < k - 1 && IsTurnEnd(actions[j]) && NoTurn(actions, j + 1, k - 1);
      assert NoTurn(actions, j + 1, k);
    }
  }

  lemma PositionFrom(before: seq<Message>, s: Scan, a: Action)
    requires Allowed(before, s, a)
    ensures a == Emit(TurnStart) ==> Next(s, a).position == InTurn
    ensures IsTurnEnd(a) ==> Next(s, a).position == Between
    ensures a != Emit(TurnStart) && !IsTurnEnd(a) ==>
              || Next(s, a).position == s.position
              || (s.position == Before && Next(s, a).position == Started)
              || (s.position == Between && Next(s, a).position == After)
  {
  }

  lemma {:induction false} PositionOfTurns(before: seq<Message>, s: Scan, actions: seq<Action>, k: nat)
    requires Accepted(before, s, actions) && k <= |actions| && s.position == Before
    ensures match At(s, actions, k).position
            case Before => NoTurn(actions, 0, k)
            case Started => NoTurn(actions, 0, k)
            case InTurn => TurnOpen(actions, k)
            case Between => TurnClosed(actions, k)
            case After => TurnClosed(actions, k)
  {
    assert NoTurn(actions, 0, 0);
    hide At, Next, Allowed, TurnOpen, TurnClosed, NoTurn, IsTurnEnd, Accepted;
    AtStart(s, actions);
    if k > 0 {
      PositionOfTurns(before, s, actions, k - 1);
      StepAt(before, s, actions, k - 1);
      PositionFrom(before, At(s, actions, k - 1), actions[k - 1]);
      TurnsGrow(actions, k);
    }
  }

  /** A turn_end closes a turn that was started and has not ended. A turn starts, and the run ends, only after
      the turn before has ended: a run without any turn never ends. */
  lemma TurnsAreBracketed(before: seq<Message>, s: Scan, actions: seq<Action>, k: nat)
    requires Accepted(before, s, actions) && k < |actions| && s.position == Before
    ensures IsTurnEnd(actions[k]) ==> TurnOpen(actions, k)
    ensures actions[k] == Emit(TurnStart) ==> TurnClosed(actions, k) || NoTurn(actions, 0, k)
    ensures actions[k].Emit? && actions[k].event.AgentEnd? ==> TurnClosed(actions, k)
  {
    hide At, Next, TurnOpen, TurnClosed, NoTurn, Accepted;
    PositionOfTurns(before, s, actions, k);
    StepAt(before, s, actions, k);
  }

  /** Turns never overlap, and the run never ends within one. */
  lemma TurnsNeverOverlap(before: seq<Message>, s: Scan, actions: seq<Action>, j: nat, k: nat)
    requires Accepted(before, s, actions) && j < k < |actions|
    requires actions[j] == Emit(TurnStart) && (actions[k] == Emit(TurnStart) || (actions[k].Emit? && actions[k].event.AgentEnd?))
    ensures exists l :: j < l < k && IsTurnEnd(actions[l])
  {
    StepAt(before, s, actions, j);
    StepAt(before, s, actions, k);
    var t := At(s, actions, k);
    assert t.position != InTurn;
    hide At, Allowed;
    if !(exists l :: j < l < k && IsTurnEnd(actions[l])) {
      TurnLasts(before, s, actions, j + 1, k);
    }
  }

  // ---------------------------------------------------------------------------------------
  // Tool calls

  lemma EndedStays(before: seq<Message>, s: Scan, a: Action, i: nat)
    requires Allowed(before, s, a) && a != Emit(TurnStart) && i < |s.turn.tools| && s.turn.tools[i].Ended?
    ensures i < |Next(s, a).turn.tools| && Next(s, a).turn.tools[i] == s.turn.tools[i]
  {
    hide NextLog, NextFlow;
  }

  lemma {:induction false} EndedLasts(before: seq<Message>, s: Scan, actions: seq<Action>, j: nat, k: nat, i: nat)
    requires Accepted(before, s, actions) && j <= k <= |actions| && SameTurn(actions, j, k)
    requires i < |At(s, actions, j).turn.tools| && At(s, actions, j).turn.tools[i].Ended?
    ensures i < |At(s, actions, k).turn.tools| && At(s, actions, k).turn.tools[i] == At(s, actions, j).turn.tools[i]
    decreases k - j
  {
    hide At, Next, Allowed, Accepted, SameTurn;
    if j < k {
      TurnShrinks(actions, j, k);
      EndedLasts(before, s, actions, j, k - 1, i);
      StepAt(before, s, actions, k - 1);
      EndedStays(before, At(s, actions, k - 1), actions[k - 1], i);
    }
  }

  lemma EndEnds(before: seq<Message>, s: Scan, a: Action)
    requires Allowed(before, s, a) && a.Emit? && a.event.ToolEnd?
    ensures a.event.call < |Next(s, a).turn.tools| && Next(s, a).turn.tools[a.event.call] == Ended(a.event.terminate, a.event.isError)
  {
  }

  lemma NothingOfAnEnded(before: seq<Message>, s: Scan, a: Action, i: nat)
    requires Allowed(before, s, a) && ScanOk(s) && i < |s.turn.tools| && s.turn.tools[i].Ended?
    ensures !IsOfTool(a, i)
  {
  }

  /** Once a tool call has ended, nothing more comes from it in its turn. */
  lemma NothingAfterToolEnd(before: seq<Message>, prompts: seq<Message>, source: Source, steering: Queue, followUps: Queue,
      actions: seq<Action>, j: nat, k: nat, i: nat)
    requires Accepted(before, Initial(prompts, source, steering, followUps), actions) && j < k < |actions| && SameTurn(actions, j, k)
    requires actions[j].Emit? && actions[j].event.ToolEnd? && actions[j].event.call == i
    ensures !IsOfTool(actions[k], i)
  {
    hide At, Next, Allowed, Accepted, SameTurn, IsOfTool, ScanOk;
    var s := Initial(prompts, source, steering, followUps);
    InitialIsOk(prompts, source, steering, followUps);
    EveryRunIsOk(before, s, actions, k);
    StepAt(before, s, actions, j);
    StepAt(before, s, actions, k);
    TurnShrinks(actions, j, k);
    EndEnds(before, At(s, actions, j), actions[j]);
    EndedLasts(before, s, actions, j + 1, k, i);
    NothingOfAnEnded(before, At(s, actions, k), actions[k], i);
  }

  /** The state of the turn shows that the action came in it. */
  predicate Shows(turn: Turn, a: Action) {
    match a
    case Answered(m) => turn.result == Some(m)
    case BeginBatch(mode) => turn.mode == Some(mode)
    case Checked(i, verdict) =>
      i < |turn.tools|
      && (if verdict.Passes? then WasPrepared(turn.tools[i]) else turn.tools[i] == Refused(verdict, verdict.terminate))
    case Execute(i) => i < |turn.tools| && WasPrepared(turn.tools[i]) && turn.tools[i] != Prepared
    case Finalized(i, terminate, isError) => i < |turn.tools| && turn.tools[i] == Finished(terminate, isError)
    case Emit(e) => (
      match e
      case MessageEnd(m) => turn.answer == Some(m)
      case ToolStart(i) => i < |turn.tools|
      case ToolEnd(i, terminate, isError) => i < |turn.tools| && turn.tools[i] == Ended(terminate, isError)
      case _ => false)
    case _ => false
  }

  predicate WasPrepared(phase: ToolPhase) {
    phase == Prepared || phase == Executing || phase == Finishing || phase.Finished?
  }

  lemma ShowsFrom(before: seq<Message>, s: Scan, b: Action, a: Action)
    requires Allowed(before, s, b) && Shows(Next(s, b).turn, a)
    ensures a == b || (Shows(s.turn, a) && b != Emit(TurnStart))
    ensures a != Emit(TurnStart)
  {
    hide MayCall, MayStartTurn, MayEnd, MaySteer, MayFollowUp, AllEnded, NextLog, NextFlow, NextQueue, NextAssigned, Next;
    assert Next(s, b).turn == NextTurn(s, b) by {
      TurnOfNext(s, b);
    }
    if !b.Emit? {
      ShowsFromOther(before, s, b, a);
    }
  }

  lemma TurnOfNext(s: Scan, b: Action)
    ensures Next(s, b).turn == NextTurn(s, b)
  {
  }

  lemma ShowsFromOther(before: seq<Message>, s: Scan, b: Action, a: Action)
    requires Allowed(before, s, b) && !b.Emit? && Shows(NextTurn(s, b), a)
    ensures a == b || Shows(s.turn, a)
  {
    hide MayCall, MayStartTurn, MayEnd, MaySteer, MayFollowUp, AllEnded;
  }

  lemma {:induction false} ShownCame(before: seq<Message>, s: Scan, actions: seq<Action>, k: nat, a: Action) returns (j: nat)
    requires Accepted(before, s, actions) && k <= |actions| && s.turn == NEW_TURN && Shows(At(s, actions, k).turn, a)
    ensures j < k && actions[j] == a && SameTurn(actions, j, k) && Shows(At(s, actions, j + 1).turn, a)
    ensures CameInTurn(actions, a, k)
  {
    hide At, Next, Allowed, Accepted, Shows;
    AtStart(s, actions);
    NewTurnShowsNothing(a);
    StepAt(before, s, actions, k - 1);
    ShowsFrom(before, At(s, actions, k - 1), actions[k - 1], a);
    j := k - 1;
    if Shows(At(s, actions, k - 1).turn, a) && actions[k - 1] != Emit(TurnStart) {
      j := ShownCame(before, s, actions, k - 1, a);
    }
  }

  lemma NewTurnShowsNothing(a: Action)
    ensures !Shows(NEW_TURN, a)
  {
  }

  /** A tool call is updated, executed or ended only after it was started in the same turn, and updated only
      after it was executed. */
  lemma ToolStartsFirst(before: seq<Message>, prompts: seq<Message>, source: Source, steering: Queue, followUps: Queue,
      actions: seq<Action>, k: nat, i: nat)
    requires Accepted(before, Initial(prompts, source, steering, followUps), actions) && k < |actions|
    requires IsOfTool(actions[k], i)
    ensures actions[k] != Emit(ToolStart(i)) ==> CameInTurn(actions, Emit(ToolStart(i)), k)
    ensures actions[k] == Emit(ToolUpdate(i)) ==> CameInTurn(actions, Execute(i), k)
  {
    hide At, Next, Allowed, CameInTurn, ScanOk, Shows, Accepted;
    var s := Initial(prompts, source, steering, followUps);
    InitialIsOk(prompts, source, steering, followUps);
    EveryRunIsOk(before, s, actions, k);
    StepAt(before, s, actions, k);
    ToolShows(before, At(s, actions, k), actions[k], i);
    if actions[k] != Emit(ToolStart(i)) {
      var _ := ShownCame(before, s, actions, k, Emit(ToolStart(i)));
    }
    if actions[k] == Emit(ToolUpdate(i)) {
      var _ := ShownCame(before, s, actions, k, Execute(i));
    }
  }

  lemma ToolShows(before: seq<Message>, s: Scan, a: Action, i: nat)
    requires Allowed(before, s, a) && ScanOk(s) && IsOfTool(a, i)
    ensures a != Emit(ToolStart(i)) ==> Shows(s.turn, Emit(ToolStart(i)))
    ensures a == Emit(ToolUpdate(i)) ==> Shows(s.turn, Execute(i))
    ensures !a.CallModel?
  {
  }

  predicate IsToolEnd(a: Action, i: nat) {
    a.Emit? && a.event.ToolEnd? && a.event.call == i
  }

  lemma GoesOn(before: seq<Message>, s: Scan, a: Action, i: nat)
    requires Allowed(before, s, a) && a != Emit(TurnStart) && !IsToolEnd(a, i)
    requires i < |s.turn.tools| && !s.turn.tools[i].Ended?
    ensures i < |Next(s, a).turn.tools| && !Next(s, a).turn.tools[i].Ended?
  {
    hide NextLog, NextFlow;
  }

  lemma {:induction false} GoesOnUntilItEnds(before: seq<Message>, s: Scan, actions: seq<Action>, j: nat, k: nat, i: nat)
    requires Accepted(before, s, actions) && j <= k <= |actions| && SameTurn(actions, j, k)
    requires i < |At(s, actions, j).turn.tools| && !At(s, actions, j).turn.tools[i].Ended?
    requires forall l :: j <= l < k ==> !IsToolEnd(actions[l], i)
    ensures i < |At(s, actions, k).turn.tools| && !At(s, actions, k).turn.tools[i].Ended?
    decreases k - j
  {
    hide At, Next, Allowed, Accepted, SameTurn, IsToolEnd;
    if j < k {
      TurnShrinks(actions, j, k);
      GoesOnUntilItEnds(before, s, actions, j, k - 1, i);
      StepAt(before, s, actions, k - 1);
      GoesOn(before, At(s, actions, k - 1), actions[k - 1], i);
    }
  }

  /** Every tool call that was started ends before its turn does. */
  lemma StartedToolsEnd(before: seq<Message>, s: Scan, actions: seq<Action>, j: nat, k: nat, i: nat)
    requires Accepted(before, s, actions) && j < k < |actions| && SameTurn(actions, j, k)
    requires actions[j] == Emit(ToolStart(i)) && IsTurnEnd(actions[k])
    ensures exists l :: j < l < k && IsToolEnd(actions[l], i)
  {
    StepAt(before, s, actions, j);
    StepAt(before, s, actions, k);
    assert AllEnded(At(s, actions, k).turn.tools);
    if forall l :: j < l < k ==> !IsToolEnd(actions[l], i) {
      GoesOnUntilItEnds(before, s, actions, j + 1, k, i);
    }
    hide At;
  }

  /** A tool is executed only for an answer of the same turn that was not cut off, failed or aborted. */
  lemma OnlyWholeAnswersExecute(before: seq<Message>, prompts: seq<Message>, source: Source, steering: Queue, followUps: Queue,
      actions: seq<Action>, k: nat)
    returns (m: Message)
    requires Accepted(before, Initial(prompts, source, steering, followUps), actions) && k < |actions| && actions[k].Execute?
    ensures CameInTurn(actions, Emit(MessageEnd(m)), k) && CameInTurn(actions, Emit(ToolStart(actions[k].call)), k)
    ensures m.Assistant? && m.stopReason !in {Length, Error, Aborted} && actions[k].call < |m.toolCalls|
  {
    hide At, Next, Allowed, CameInTurn, ScanOk, Shows, Accepted;
    var s := Initial(prompts, source, steering, followUps);
    InitialIsOk(prompts, source, steering, followUps);
    StepAt(before, s, actions, k);
    EveryRunIsOk(before, s, actions, k);
    m := WholeAnswer(before, At(s, actions, k), actions[k]);
    var _ := ShownCame(before, s, actions, k, Emit(MessageEnd(m)));
    var _ := ShownCame(before, s, actions, k, Emit(ToolStart(actions[k].call)));
  }

  lemma WholeAnswer(before: seq<Message>, s: Scan, a: Action) returns (m: Message)
    requires Allowed(before, s, a) && ScanOk(s) && a.Execute?
    ensures Shows(s.turn, Emit(MessageEnd(m))) && Shows(s.turn, Emit(ToolStart(a.call)))
    ensures m.Assistant? && m.stopReason !in {Length, Error, Aborted} && a.call < |m.toolCalls|
  {
    m := s.turn.answer.value;
  }

  /** It is executed only after its check let it pass, at a moment when the run was not aborted. */
  lemma OnlyCheckedToolsExecute(before: seq<Message>, prompts: seq<Message>, source: Source, steering: Queue, followUps: Queue,
      actions: seq<Action>, k: nat)
    returns (j: nat)
    requires Accepted(before, Initial(prompts, source, steering, followUps), actions) && k < |actions| && actions[k].Execute?
    ensures j < k && actions[j] == Checked(actions[k].call, Passes) && SameTurn(actions, j, k) && Abort !in actions[..j]
  {
    hide At, Next, Allowed, CameInTurn, Shows, Accepted;
    var s := Initial(prompts, source, steering, followUps);
    StepAt(before, s, actions, k);
    var check := Checked(actions[k].call, Passes);
    PreparedShows(before, At(s, actions, k), actions[k]);
    j := ShownCame(before, s, actions, k, check);
    StepAt(before, s, actions, j);
    PassedUnaborted(before, At(s, actions, j), actions[j]);
    AbortedFollows(s, actions[..j]);
    assert At(s, actions, j) == Fold(s, actions[..j]) by {
      AtIsFold(s, actions, j);
    }
  }

  lemma AtIsFold(s: Scan, actions: seq<Action>, k: nat)
    requires k <= |actions|
    ensures At(s, actions, k) == Fold(s, actions[..k])
  {
  }

  lemma PreparedShows(before: seq<Message>, s: Scan, a: Action)
    requires Allowed(before, s, a) && a.Execute?
    ensures Shows(s.turn, Checked(a.call, Passes))
  {
  }

  lemma PassedUnaborted(before: seq<Message>, s: Scan, a: Action)
    requires Allowed(before, s, a) && a.Checked? && a.verdict == Passes && Shows(Next(s, a).turn, a)
    ensures !s.aborted
  {
  }

  /** The results of a turn are those of its first calls, in order: of all of them unless the run was aborted,
      and of one at least when there are calls; of none when the answer failed. */
  lemma ResultsArePrefix(before: seq<Message>, prompts: seq<Message>, source: Source, steering: Queue, followUps: Queue,
      actions: seq<Action>, k: nat)
    requires Accepted(before, Initial(prompts, source, steering, followUps), actions) && k < |actions|
    requires actions[k].Emit? && actions[k].event.TurnEnd?
    ensures var m, results := actions[k].event.message, actions[k].event.toolResults;
            && m.Assistant? && |results| <= |m.toolCalls|
            && (forall i :: 0 <= i < |results| ==> results[i].ToolResult? && results[i].toolCallId == m.toolCalls[i].id)
            && (Failed(m) ==> results == [])
            && (!Failed(m) && m.toolCalls != [] ==> results != [])
            && (!Failed(m) && |results| < |m.toolCalls| ==> Abort in actions[..k])
  {
    var s := Initial(prompts, source, steering, followUps);
    StepAt(before, s, actions, k);
    EveryRunIsOk(before, s, actions, k);
    AbortedFollows(s, actions[..k]);
    var t := At(s, actions, k);
    forall i | 0 <= i < |t.turn.results| ensures IsResultOf(t.turn.results[i], t.turn.answer.value, i) {
    }
    hide At, FlowOk, Next, Fold;
  }

  lemma {:induction false} AbortedFollows(s: Scan, actions: seq<Action>)
    ensures Fold(s, actions).aborted <==> s.aborted || Abort in actions
  {
    hide NextPosition, NextLog, NextTurn, NextFlow, NextQueue, NextAssigned;
    if actions != [] {
      assert actions == actions[..|actions| - 1] + [actions[|actions| - 1]];
      AbortedFollows(s, actions[..|actions| - 1]);
    }
  }

  lemma TurnShrinksTo(actions: seq<Action>, b: nat, j: nat, k: nat)
    requires b < j < k <= |actions| && SameTurn(actions, b, k)
    ensures SameTurn(actions, b + 1, j) && SameTurn(actions, j + 1, k) && actions[j] != Emit(TurnStart)
  {
  }

  lemma InitialIsOk(prompts: seq<Message>, source: Source, steering: Queue, followUps: Queue)
    ensures ScanOk(Initial(prompts, source, steering, followUps))
  {
  }

  lemma BatchIsParallel(before: seq<Message>, s: Scan)
    requires Allowed(before, s, BeginBatch(Parallel)) && ScanOk(s)
    ensures InParallel(Next(s, BeginBatch(Parallel)))
  {
  }

  lemma StartReports(before: seq<Message>, s: Scan, a: Action)
    requires Allowed(before, s, a) && a.Emit? && a.event.MessageStart? && InParallel(s)
    ensures Reporting(Next(s, a))
  {
  }

  lemma NoToolWhileReporting(before: seq<Message>, s: Scan, a: Action, i: nat)
    requires Allowed(before, s, a) && ScanOk(s) && Reporting(s)
    ensures !IsOfTool(a, i)
  {
  }

  /** In a parallel batch every tool event comes before the first result message. */
  lemma ParallelResultsComeLast(before: seq<Message>, prompts: seq<Message>, source: Source, steering: Queue, followUps: Queue,
      actions: seq<Action>,
                                b: nat, j: nat, k: nat, i: nat)
    requires Accepted(before, Initial(prompts, source, steering, followUps), actions) && b < j < k < |actions| && SameTurn(actions, b, k)
    requires actions[b] == BeginBatch(Parallel) && actions[j].Emit? && actions[j].event.MessageStart?
    ensures !IsOfTool(actions[k], i)
  {
    hide At, Next, Allowed, Accepted, SameTurn, Reporting, InParallel, ScanOk, IsOfTool;
    var s := Initial(prompts, source, steering, followUps);
    TurnShrinksTo(actions, b, j, k);
    assert ScanOk(s) by {
      InitialIsOk(prompts, source, steering, followUps);
    }
    StepAt(before, s, actions, b);
    StepAt(before, s, actions, j);
    StepAt(before, s, actions, k);
    EveryRunIsOk(before, s, actions, b);
    BatchIsParallel(before, At(s, actions, b));
    ParallelLasts(before, s, actions, b + 1, j);
    StartReports(before, At(s, actions, j), actions[j]);
    ReportingLasts(before, s, actions, j + 1, k);
    EveryRunIsOk(before, s, actions, k);
    NoToolWhileReporting(before, At(s, actions, k), actions[k], i);
  }

  predicate InParallel(s: Scan) {
    s.turn.mode == Some(Parallel) && s.turn.called && s.turn.answer.Some?
  }

  predicate Reporting(s: Scan) {
    InParallel(s) && (s.turn.results != [] || s.log.open.Some?)
  }

  lemma ParallelStays(before: seq<Message>, s: Scan, a: Action)
    requires Allowed(before, s, a) && a != Emit(TurnStart) && InParallel(s)
    ensures InParallel(Next(s, a))
  {
    hide NextLog, NextFlow;
  }

  lemma {:induction false} ParallelLasts(before: seq<Message>, s: Scan, actions: seq<Action>, j: nat, k: nat)
    requires Accepted(before, s, actions) && j <= k <= |actions| && SameTurn(actions, j, k) && InParallel(At(s, actions, j))
    ensures InParallel(At(s, actions, k))
    decreases k - j
  {
    hide *;
    if j < k {
      TurnShrinks(actions, j, k);
      ParallelLasts(before, s, actions, j, k - 1);
      StepAt(before, s, actions, k - 1);
      ParallelStays(before, At(s, actions, k - 1), actions[k - 1]);
    }
  }

  lemma ReportingStays(before: seq<Message>, s: Scan, a: Action)
    requires Allowed(before, s, a) && a != Emit(TurnStart) && Reporting(s)
    ensures Reporting(Next(s, a))
  {
    hide NextFlow;
  }

  lemma {:induction false} ReportingLasts(before: seq<Message>, s: Scan, actions: seq<Action>, j: nat, k: nat)
    requires Accepted(before, s, actions) && j <= k <= |actions| && SameTurn(actions, j, k) && Reporting(At(s, actions, j))
    ensures Reporting(At(s, actions, k))
    decreases k - j
  {
    hide *;
    if j < k {
      TurnShrinks(actions, j, k);
      ReportingLasts(before, s, actions, j, k - 1);
      StepAt(before, s, actions, k - 1);
      ReportingStays(before, At(s, actions, k - 1), actions[k - 1]);
    }
  }

  // ---------------------------------------------------------------------------------------
  // How a run goes on, and how it ends

  predicate DryPoll(s: Scan) {
    s.position == Between && s.flow.polled && s.log.pending == [] && !s.flow.dry && !s.flow.hasMore
  }

  /** The action came earlier, and only actions from outside the loop came after it. */
  ghost predicate CameLast(actions: seq<Action>, a: Action, k: nat)
    requires k <= |actions|
  {
    exists j :: 0 <= j < k && actions[j] == a && forall l :: j < l < k ==> Aside(actions[l])
  }

  lemma DryPollFrom(before: seq<Message>, s: Scan, a: Action)
    requires Allowed(before, s, a) && ScanOk(s) && DryPoll(Next(s, a))
    ensures a == Poll(Steering, []) || (Aside(a) && DryPoll(s))
  {
  }

  lemma CameLastGrows(actions: seq<Action>, a: Action, k: nat)
    requires 0 < k <= |actions| && (actions[k - 1] == a || (Aside(actions[k - 1]) && CameLast(actions, a, k - 1)))
    ensures CameLast(actions, a, k)
  {
  }

  lemma {:induction false} DryPollWasLast(before: seq<Message>, s: Scan, actions: seq<Action>, k: nat)
    requires Accepted(before, s, actions) && k <= |actions| && ScanOk(s) && s.position == Before && DryPoll(At(s, actions, k))
    ensures CameLast(actions, Poll(Steering, []), k)
  {
    hide At, Next, Allowed, ScanOk, CameLast, Accepted;
    AtStart(s, actions);
    EveryRunIsOk(before, s, actions, k - 1);
    StepAt(before, s, actions, k - 1);
    DryPollFrom(before, At(s, actions, k - 1), actions[k - 1]);
    if actions[k - 1] != Poll(Steering, []) {
      DryPollWasLast(before, s, actions, k - 1);
    }
    CameLastGrows(actions, Poll(Steering, []), k);
  }

  /** Every tool call that ended in this turn asked to stop. */
  predicate ToolsAskToStop(actions: seq<Action>, k: nat)
    requires k <= |actions|
  {
    forall j :: 0 <= j < k && actions[j].Emit? && actions[j].event.ToolEnd? && SameTurn(actions, j, k) ==> actions[j].event.terminate
  }

  lemma NoMoreMeansAsked(before: seq<Message>, s: Scan, actions: seq<Action>, k: nat)
    requires Accepted(before, s, actions) && k <= |actions|
    requires At(s, actions, k).turn.tools == [] || AllAsk(At(s, actions, k).turn.tools)
    ensures ToolsAskToStop(actions, k)
  {
    forall j | 0 <= j < k && actions[j].Emit? && actions[j].event.ToolEnd? && SameTurn(actions, j, k)
      ensures actions[j].event.terminate
    {
      hide At, Next, Allowed, Accepted, SameTurn;
      StepAt(before, s, actions, j);
      TurnShrinks(actions, j, k);
      EndEnds(before, At(s, actions, j), actions[j]);
      EndedLasts(before, s, actions, j + 1, k, actions[j].event.call);
    }
  }

  /** A follow-up is polled only right after a steering poll that came back empty, and only when no tool calls
      are left to continue: there were none, or every one of them asked to stop. */
  lemma FollowUpsComeLast(before: seq<Message>, prompts: seq<Message>, source: Source, steering: Queue, followUps: Queue,
      actions: seq<Action>, k: nat)
    requires Accepted(before, Initial(prompts, source, steering, followUps), actions) && k < |actions|
    requires actions[k].Poll? && actions[k].source == FollowUps
    ensures CameLast(actions, Poll(Steering, []), k)
    ensures ToolsAskToStop(actions, k)
  {
    var s := Initial(prompts, source, steering, followUps);
    StepAt(before, s, actions, k);
    EveryRunIsOk(before, s, actions, k);
    DryPollWasLast(before, s, actions, k);
    NoMoreMeansAsked(before, s, actions, k);
    hide At, Next, CameLast, ToolsAskToStop;
  }

  /** Nothing makes the run go on. */
  predicate Ending(s: Scan) {
    s.position == Between && (LastFailed(s) || s.flow.stop || s.flow.dry)
  }

  /** The action is why nothing does. */
  predicate Explains(s: Scan, a: Action) {
    || (IsTurnEnd(a) && Failed(a.event.message) && a.event.toolResults == [])
    || (a.Decide? && a.stop)
    || (a == Poll(FollowUps, []) && s.flow.dry)
  }

  lemma EndingFrom(before: seq<Message>, s: Scan, a: Action)
    requires Allowed(before, s, a) && ScanOk(s) && Ending(Next(s, a))
    ensures Explains(Next(s, a), a) || (Aside(a) && Ending(s))
  {
    hide NextLog, AnswerOk, ResultsOk;
  }

  lemma StillExplains(s: Scan, b: Action, a: Action)
    requires Aside(b) && Explains(s, a)
    ensures Explains(Next(s, b), a)
  {
  }

  lemma {:induction false} EndingCame(before: seq<Message>, s: Scan, actions: seq<Action>, k: nat) returns (a: Action)
    requires Accepted(before, s, actions) && k <= |actions| && ScanOk(s) && s.position == Before && Ending(At(s, actions, k))
    ensures CameLast(actions, a, k) && Explains(At(s, actions, k), a)
  {
    hide At, Next, Allowed, ScanOk, CameLast, Accepted, Explains;
    AtStart(s, actions);
    EveryRunIsOk(before, s, actions, k - 1);
    StepAt(before, s, actions, k - 1);
    EndingFrom(before, At(s, actions, k - 1), actions[k - 1]);
    a := actions[k - 1];
    if !Explains(At(s, actions, k), a) {
      a := EndingCame(before, s, actions, k - 1);
      StillExplains(At(s, actions, k - 1), actions[k - 1], a);
    }
    CameLastGrows(actions, a, k);
  }

  /** The run ends right after one of three things: a turn that ended with a failed answer and no results; a hook
      that stops it; or a look into the follow-up queue that found nothing, when every tool call of the last turn
      had asked to stop. */
  lemma WhyTheRunEnds(before: seq<Message>, prompts: seq<Message>, source: Source, steering: Queue, followUps: Queue,
      actions: seq<Action>, k: nat)
    returns (a: Action)
    requires Accepted(before, Initial(prompts, source, steering, followUps), actions) && k < |actions|
    requires actions[k].Emit? && actions[k].event.AgentEnd?
    ensures CameLast(actions, a, k)
    ensures || (IsTurnEnd(a) && Failed(a.event.message) && a.event.toolResults == [])
            || (a.Decide? && a.stop)
            || (a == Poll(FollowUps, []) && ToolsAskToStop(actions, k))
  {
    var s := Initial(prompts, source, steering, followUps);
    StepAt(before, s, actions, k);
    EveryRunIsOk(before, s, actions, k);
    a := EndingCame(before, s, actions, k);
    if At(s, actions, k).flow.dry {
      NoMoreMeansAsked(before, s, actions, k);
    }
    hide At, Next, CameLast, ToolsAskToStop;
  }
}
