/** What the model, the tools and the hooks answer, and what the run makes of it. */
module AgentAnswers {
  import opened Results
  import opened AgentProtocol
  import opened AgentRuns
  import opened AgentPolls

  // ---------------------------------------------------------------------------------------
  // The model's stream is passed on

  lemma DueIsNext(before: seq<Message>, s: Scan, a: Action)
    requires Allowed(before, s, a) && ScanOk(s) && s.turn.due.Some? && !Aside(a)
    ensures a == Emit(s.turn.due.value)
  {
  }

  /** What is due after action j is the next that the loop does. */
  lemma DueComesNext(before: seq<Message>, s: Scan, actions: seq<Action>, j: nat, k: nat, e: Event)
    requires Accepted(before, s, actions) && ScanOk(s) && j < k < |actions| && At(s, actions, j + 1).turn.due == Some(e)
    requires !Aside(actions[k]) && forall l :: j < l < k ==> Aside(actions[l])
    ensures actions[k] == Emit(e)
  {
    hide At, Next, Allowed, Accepted, ScanOk, Aside;
    BetweenAsides(before, s, actions, j + 1, k);
    StepAt(before, s, actions, k);
    EveryRunIsOk(before, s, actions, k);
    DueIsNext(before, At(s, actions, k), actions[k]);
  }

  /** The first event of the stream becomes the message_start of its partial message, and each later one its update:
      nothing else of the loop comes before. */
  lemma StreamIsPassedOn(before: seq<Message>, prompts: seq<Message>, source: Source, steering: Queue, followUps: Queue,
      actions: seq<Action>, j: nat, k: nat)
    requires Accepted(before, Initial(prompts, source, steering, followUps), actions) && j < k < |actions|
    requires actions[j].Streamed? && !Aside(actions[k]) && forall l :: j < l < k ==> Aside(actions[l])
    ensures actions[j].streamEvent.Start? ==>
              actions[k] == Emit(MessageStart(Assistant(actions[j].streamEvent.id, Pending, [])))
    ensures forall i, id :: 0 <= i < j && actions[i] == Streamed(Start(id)) && SameTurn(actions, i, j) && actions[j].streamEvent.Delta? ==>
              actions[k] == Emit(MessageUpdate(Assistant(actions[j].streamEvent.id, Pending, [])))
  {
    hide At, Next, Allowed, Accepted, ScanOk, Aside, SameTurn;
    var s := Initial(prompts, source, steering, followUps);
    InitialIsOk(prompts, source, steering, followUps);
    StepAt(before, s, actions, j);
    StreamMakesDue(before, At(s, actions, j), actions[j]);
    var e := actions[j].streamEvent;
    if e.Start? {
      DueComesNext(before, s, actions, j, k, MessageStart(PartialOf(e.id)));
    }
    forall i, id | 0 <= i < j && actions[i] == Streamed(Start(id)) && SameTurn(actions, i, j) && e.Delta?
      ensures actions[k] == Emit(MessageUpdate(PartialOf(e.id)))
    {
      StepAt(before, s, actions, i);
      TurnShrinks(actions, i, j);
      StreamMakesDue(before, At(s, actions, i), actions[i]);
      StreamLasts(before, s, actions, i + 1, j);
      StreamStandsOpen(before, At(s, actions, j), actions[j]);
      DueComesNext(before, s, actions, j, k, MessageUpdate(PartialOf(e.id)));
    }
  }

  lemma StreamMakesDue(before: seq<Message>, s: Scan, a: Action)
    requires Allowed(before, s, a) && a.Streamed?
    ensures a.streamEvent.Start? ==>
              Next(s, a).turn.due == Some(MessageStart(PartialOf(a.streamEvent.id))) && Underway(Next(s, a))
    ensures a.streamEvent.Delta? && s.log.open.Some? ==> Next(s, a).turn.due == Some(MessageUpdate(PartialOf(a.streamEvent.id)))
  {
  }

  /** The stream's message was started, or its start is due; or it has ended. */
  predicate Underway(s: Scan) {
    s.turn.called && (s.log.open.Some? || s.turn.answer.Some? || (s.turn.due.Some? && s.turn.due.value.MessageStart?))
  }

  lemma UnderwayStays(before: seq<Message>, s: Scan, a: Action)
    requires Allowed(before, s, a) && Underway(s) && a != Emit(TurnStart)
    ensures Underway(Next(s, a))
  {
  }

  lemma {:induction false} StreamLasts(before: seq<Message>, s: Scan, actions: seq<Action>, j: nat, k: nat)
    requires Accepted(before, s, actions) && j <= k <= |actions| && SameTurn(actions, j, k) && Underway(At(s, actions, j))
    ensures Underway(At(s, actions, k))
    decreases k - j
  {
    hide *;
    if j < k {
      TurnShrinks(actions, j, k);
      StreamLasts(before, s, actions, j, k - 1);
      StepAt(before, s, actions, k - 1);
      UnderwayStays(before, At(s, actions, k - 1), actions[k - 1]);
    }
  }

  lemma StreamStandsOpen(before: seq<Message>, s: Scan, a: Action)
    requires Allowed(before, s, a) && a.Streamed? && Underway(s)
    ensures s.log.open.Some?
    ensures a.streamEvent.Delta? ==> Next(s, a).turn.due == Some(MessageUpdate(PartialOf(a.streamEvent.id)))
  {
  }

  /** The answer that a turn ends with is the one that the model's stream has given in that turn. */
  lemma TurnsEndWithTheAnswer(before: seq<Message>, prompts: seq<Message>, source: Source, steering: Queue, followUps: Queue,
      actions: seq<Action>, k: nat)
    requires Accepted(before, Initial(prompts, source, steering, followUps), actions) && k < |actions| && IsTurnEnd(actions[k])
    ensures CameInTurn(actions, Answered(actions[k].event.message), k)
    ensures CameInTurn(actions, Emit(MessageEnd(actions[k].event.message)), k)
  {
    hide At, Next, Allowed, Accepted, ScanOk, CameInTurn, Shows;
    var s := Initial(prompts, source, steering, followUps);
    InitialIsOk(prompts, source, steering, followUps);
    StepAt(before, s, actions, k);
    EveryRunIsOk(before, s, actions, k);
    TurnEndShows(before, At(s, actions, k), actions[k]);
    var _ := ShownCame(before, s, actions, k, Answered(actions[k].event.message));
    var _ := ShownCame(before, s, actions, k, Emit(MessageEnd(actions[k].event.message)));
  }

  lemma TurnEndShows(before: seq<Message>, s: Scan, a: Action)
    requires Allowed(before, s, a) && ScanOk(s) && IsTurnEnd(a)
    ensures Shows(s.turn, Answered(a.event.message)) && Shows(s.turn, Emit(MessageEnd(a.event.message)))
  {
    hide DueOk, ToolsOk, FlowOk, RefusedOk;
  }

  lemma ResultShows(before: seq<Message>, s: Scan, a: Action, i: nat) returns (terminate: bool)
    requires Allowed(before, s, a) && ScanOk(s) && IsTurnEnd(a) && i < |a.event.toolResults|
    ensures a.event.toolResults[i].ToolResult?
    ensures Shows(s.turn, Emit(ToolEnd(i, terminate, a.event.toolResults[i].isError)))
  {
    assert IsResultOf(s.turn.results[i], s.turn.answer.value, i);
    terminate := s.turn.tools[i].terminate;
    hide DueOk, ToolsOk, FlowOk, RefusedOk;
  }

  // ---------------------------------------------------------------------------------------
  // The tools' answers

  /** While a tool executes, what it calls back with is emitted as an update, and nothing else of the loop comes before;
      once it has returned, it is not. */
  lemma CallbacksAreUpdates(before: seq<Message>, prompts: seq<Message>, source: Source, steering: Queue, followUps: Queue,
      actions: seq<Action>, x: nat, j: nat, k: nat, i: nat)
    requires Accepted(before, Initial(prompts, source, steering, followUps), actions) && x < j < k < |actions|
    requires actions[x] == Execute(i) && SameTurn(actions, x, j) && actions[j] == CalledBack(i)
    requires !Aside(actions[k]) && forall l :: j < l < k ==> Aside(actions[l])
    ensures actions[k] == Emit(ToolUpdate(i)) <==> forall l :: x < l < j ==> actions[l] != Returned(i)
  {
    hide At, Next, Allowed, Accepted, ScanOk, Aside, SameTurn, Executes;
    var s := Initial(prompts, source, steering, followUps);
    InitialIsOk(prompts, source, steering, followUps);
    StepAt(before, s, actions, x);
    StepAt(before, s, actions, j);
    TurnShrinks(actions, x, j);
    ExecuteExecutes(before, At(s, actions, x), i);
    CallbackMakesDue(before, At(s, actions, j), i);
    if forall l :: x < l < j ==> actions[l] != Returned(i) {
      ExecutesOn(before, s, actions, x + 1, j, i);
      DueComesNext(before, s, actions, j, k, ToolUpdate(i));
    } else {
      var l :| x < l < j && actions[l] == Returned(i);
      StepAt(before, s, actions, l);
      TurnEndsIn(actions, x, l, j);
      ReturnReturns(before, At(s, actions, l), i);
      ReturnedLasts(before, s, actions, l + 1, j, i);
      BetweenAsides(before, s, actions, j + 1, k);
      StepAt(before, s, actions, k);
      ReturnedExecutesNot(At(s, actions, j).turn, i);
      NoUpdateUndue(before, At(s, actions, k), i);
    }
  }

  lemma TurnEndsIn(actions: seq<Action>, j: nat, l: nat, k: nat)
    requires j < l < k <= |actions| && SameTurn(actions, j, k)
    ensures SameTurn(actions, l + 1, k)
  {
  }

  predicate Executes(turn: Turn, i: nat) {
    i < |turn.tools| && turn.tools[i] == Executing
  }

  predicate HasReturned(turn: Turn, i: nat) {
    i < |turn.tools| && (turn.tools[i] == Finishing || turn.tools[i].Finished? || turn.tools[i].Ended?)
  }

  lemma CallbackMakesDue(before: seq<Message>, s: Scan, i: nat)
    requires Allowed(before, s, CalledBack(i))
    ensures Next(s, CalledBack(i)).turn.due == if Executes(s.turn, i) then Some(ToolUpdate(i)) else None
  {
  }

  lemma NoUpdateUndue(before: seq<Message>, s: Scan, i: nat)
    requires s.turn.due == None
    ensures !Allowed(before, s, Emit(ToolUpdate(i)))
  {
  }

  lemma ExecuteExecutes(before: seq<Message>, s: Scan, i: nat)
    requires Allowed(before, s, Execute(i))
    ensures Executes(Next(s, Execute(i)).turn, i)
  {
  }

  lemma ReturnReturns(before: seq<Message>, s: Scan, i: nat)
    requires Allowed(before, s, Returned(i))
    ensures HasReturned(Next(s, Returned(i)).turn, i)
  {
  }

  lemma ReturnedExecutesNot(turn: Turn, i: nat)
    requires HasReturned(turn, i)
    ensures !Executes(turn, i)
  {
  }

  lemma ExecutingStays(before: seq<Message>, s: Scan, a: Action, i: nat)
    requires Allowed(before, s, a) && a != Emit(TurnStart)
    ensures Executes(s.turn, i) && a != Returned(i) ==> Executes(Next(s, a).turn, i)
    ensures HasReturned(s.turn, i) ==> HasReturned(Next(s, a).turn, i)
  {
    hide NextLog, NextFlow, NextQueue, NextAssigned;
  }

  lemma {:induction false} ExecutesOn(before: seq<Message>, s: Scan, actions: seq<Action>, j: nat, k: nat, i: nat)
    requires Accepted(before, s, actions) && j <= k <= |actions| && SameTurn(actions, j, k) && Executes(At(s, actions, j).turn, i)
    requires forall l :: j <= l < k ==> actions[l] != Returned(i)
    ensures Executes(At(s, actions, k).turn, i)
    decreases k - j
  {
    hide *;
    if j < k {
      TurnShrinks(actions, j, k);
      ExecutesOn(before, s, actions, j, k - 1, i);
      StepAt(before, s, actions, k - 1);
      ExecutingStays(before, At(s, actions, k - 1), actions[k - 1], i);
    }
  }

  lemma {:induction false} ReturnedLasts(before: seq<Message>, s: Scan, actions: seq<Action>, j: nat, k: nat, i: nat)
    requires Accepted(before, s, actions) && j <= k <= |actions| && SameTurn(actions, j, k) && HasReturned(At(s, actions, j).turn, i)
    ensures HasReturned(At(s, actions, k).turn, i)
    decreases k - j
  {
    hide *;
    if j < k {
      TurnShrinks(actions, j, k);
      ReturnedLasts(before, s, actions, j, k - 1, i);
      StepAt(before, s, actions, k - 1);
      ExecutingStays(before, At(s, actions, k - 1), actions[k - 1], i);
    }
  }

  /** How a tool call may have come to its end. */
  ghost predicate EndsAsTold(actions: seq<Action>, k: nat, i: nat, terminate: bool, isError: bool)
    requires k <= |actions|
  {
    // the tool returned, and the hook after it has said so
    || CameInTurn(actions, Finalized(i, terminate, isError), k)
    // it was refused for what was said of it, or because the run was aborted
    || (isError && CameInTurn(actions, Checked(i, Blocks(terminate)), k))
    || (isError && !terminate && Abort in actions[..k])
    // the answer was truncated
    || (isError && !terminate && CameInTurn(actions, BeginBatch(Truncated), k))
  }

  /** A tool call ends as the tool and the hooks have said: with the outcome and the wish to stop that the hook after it
      has settled, or as an error when it was not executed. */
  lemma CallsEndAsTold(before: seq<Message>, prompts: seq<Message>, source: Source, steering: Queue, followUps: Queue,
      actions: seq<Action>, k: nat)
    requires Accepted(before, Initial(prompts, source, steering, followUps), actions) && k < |actions|
    requires actions[k].Emit? && actions[k].event.ToolEnd?
    ensures EndsAsTold(actions, k, actions[k].event.call, actions[k].event.terminate, actions[k].event.isError)
  {
    hide At, Next, Allowed, Accepted, ScanOk, CameInTurn, Shows;
    var s := Initial(prompts, source, steering, followUps);
    InitialIsOk(prompts, source, steering, followUps);
    StepAt(before, s, actions, k);
    EveryRunIsOk(before, s, actions, k);
    var i, terminate, isError := actions[k].event.call, actions[k].event.terminate, actions[k].event.isError;
    var t := At(s, actions, k);
    EndShows(before, t, actions[k]);
    if Shows(t.turn, Finalized(i, terminate, isError)) {
      var _ := ShownCame(before, s, actions, k, Finalized(i, terminate, isError));
    } else if Shows(t.turn, Checked(i, Blocks(terminate))) {
      var _ := ShownCame(before, s, actions, k, Checked(i, Blocks(terminate)));
    } else if Shows(t.turn, BeginBatch(Truncated)) {
      var _ := ShownCame(before, s, actions, k, BeginBatch(Truncated));
    } else {
      AbortedFollows(s, actions[..k]);
      AtIsFold(s, actions, k);
    }
  }

  lemma EndShows(before: seq<Message>, s: Scan, a: Action)
    requires Allowed(before, s, a) && ScanOk(s) && a.Emit? && a.event.ToolEnd?
    ensures var i, terminate, isError := a.event.call, a.event.terminate, a.event.isError;
            || Shows(s.turn, Finalized(i, terminate, isError))
            || (isError && Shows(s.turn, Checked(i, Blocks(terminate))))
            || (isError && !terminate && Shows(s.turn, BeginBatch(Truncated)))
            || (isError && !terminate && s.aborted)
  {
  }

  /** Each result of a turn says whether its call ended as an error. */
  lemma ResultsSayHowItEnded(before: seq<Message>, prompts: seq<Message>, source: Source, steering: Queue, followUps: Queue,
      actions: seq<Action>, k: nat, i: nat)
    returns (terminate: bool)
    requires Accepted(before, Initial(prompts, source, steering, followUps), actions) && k < |actions| && IsTurnEnd(actions[k])
    requires i < |actions[k].event.toolResults|
    ensures actions[k].event.toolResults[i].ToolResult?
    ensures CameInTurn(actions, Emit(ToolEnd(i, terminate, actions[k].event.toolResults[i].isError)), k)
  {
    hide At, Next, Allowed, Accepted, ScanOk, CameInTurn;
    var s := Initial(prompts, source, steering, followUps);
    InitialIsOk(prompts, source, steering, followUps);
    StepAt(before, s, actions, k);
    EveryRunIsOk(before, s, actions, k);
    terminate := ResultShows(before, At(s, actions, k), actions[k], i);
    var _ := ShownCame(before, s, actions, k, Emit(ToolEnd(i, terminate, actions[k].event.toolResults[i].isError)));
  }

  /** Once the run was aborted, no tool call but the first of a batch is started, unless it is only reported as
      truncated. */
  lemma AbortStopsTheBatch(before: seq<Message>, prompts: seq<Message>, source: Source, steering: Queue, followUps: Queue,
      actions: seq<Action>, k: nat)
    requires Accepted(before, Initial(prompts, source, steering, followUps), actions) && k < |actions|
    requires actions[k].Emit? && actions[k].event.ToolStart? && Abort in actions[..k]
    ensures actions[k].event.call == 0 || CameInTurn(actions, BeginBatch(Truncated), k)
  {
    hide Accepted, At, CameInTurn, Shows;
    var s := Initial(prompts, source, steering, followUps);
    StepAt(before, s, actions, k);
    AbortedFollows(s, actions[..k]);
    AtIsFold(s, actions, k);
    hide Fold, Next;
    if actions[k].event.call != 0 {
      TruncatedShows(At(s, actions, k));
      var _ := ShownCame(before, s, actions, k, BeginBatch(Truncated));
    }
  }

  lemma TruncatedShows(s: Scan)
    ensures s.turn.mode == Some(Truncated) ==> Shows(s.turn, BeginBatch(Truncated))
  {
  }

  // ---------------------------------------------------------------------------------------
  // The message that is streaming

  /** The message that was started or updated last and has not ended, told by the actions alone. */
  function StreamingAfter(actions: seq<Action>): Option<Message> {
    if actions == [] then None
    else
      var last := actions[|actions| - 1];
      if last.Emit? && (last.event.MessageStart? || last.event.MessageUpdate?) then Some(last.event.message)
      else if last.Emit? && (last.event.MessageEnd? || last.event.AgentEnd?) then None
      else StreamingAfter(actions[..|actions| - 1])
  }

  /** The automaton's open message is that one, and with it the agent's streamingMessage. */
  lemma {:induction false} StreamingFollows(before: seq<Message>, s: Scan, actions: seq<Action>)
    requires Accepted(before, s, actions) && s.log.open.None?
    ensures Fold(s, actions).log.open == StreamingAfter(actions)
  {
    if actions != [] {
      var front, last := actions[..|actions| - 1], actions[|actions| - 1];
      StreamingFollows(before, s, front);
      OpenAfter(before, Fold(s, front), last);
      hide Next, Allowed;
    }
  }

  lemma OpenAfter(before: seq<Message>, s: Scan, a: Action)
    requires Allowed(before, s, a)
    ensures Next(s, a).log.open ==
            if a.Emit? && (a.event.MessageStart? || a.event.MessageUpdate?) then Some(a.event.message)
            else if a.Emit? && (a.event.MessageEnd? || a.event.AgentEnd?) then None
            else s.log.open
  {
  }
}
