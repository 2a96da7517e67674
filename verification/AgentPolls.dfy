/** The queues of a run: every poll takes what is then queued, and what follows from that. */
module AgentPolls {
  import opened Results
  import opened AgentProtocol
  import opened AgentRuns

  // ---------------------------------------------------------------------------------------
  // What is queued, told by the actions alone

  /** A queue after the actions: messages are enqueued, cleared and polled, and its mode is set. */
  function QueueAfter(q: Queue, source: Source, actions: seq<Action>): Queue {
    if actions == [] then q
    else
      var earlier, last := QueueAfter(q, source, actions[..|actions| - 1]), actions[|actions| - 1];
      match last
      case Enqueue(queue, m) => if queue == source then Queue(earlier.messages + [m], earlier.mode) else earlier
      case ClearQueue(queue) => if queue == source then Queue([], earlier.mode) else earlier
      case SetMode(queue, mode) => if queue == source then Queue(earlier.messages, mode) else earlier
      case Poll(polled, drained) =>
        if polled == source && |drained| <= |earlier.messages|
        then Queue(earlier.messages[|drained|..], earlier.mode) else earlier
      case _ => earlier
  }

  predicate Polled(actions: seq<Action>) {
    exists k :: 0 <= k < |actions| && actions[k].Poll? && actions[k].source == Steering
  }

  lemma {:induction false} QueuesFollow(s: Scan, actions: seq<Action>)
    ensures Fold(s, actions).steering == QueueAfter(s.steering, Steering, actions)
    ensures Fold(s, actions).followUps == QueueAfter(s.followUps, FollowUps, actions)
    ensures Fold(s, actions).skips == s.skips
  {
    hide NextPosition, NextLog, NextTurn, NextFlow, NextAssigned;
    if actions != [] {
      QueuesFollow(s, actions[..|actions| - 1]);
    }
  }

  // ---------------------------------------------------------------------------------------
  // The first steering poll

  /** No steering poll has come yet. */
  predicate FirstDue(s: Scan) {
    s.position == Before || s.position == Started || (s.position == InTurn && !s.flow.polled)
  }

  lemma FirstDueStays(before: seq<Message>, s: Scan, a: Action)
    requires Allowed(before, s, a) && ScanOk(s)
    ensures FirstDue(Next(s, a)) <==> FirstDue(s) && !(a.Poll? && a.source == Steering)
    ensures FirstDue(s) && a.Poll? ==> a.source == Steering
  {
    hide NextLog, DueOk, ToolsOk, ResultsOk, RefusedOk;
  }

  lemma PolledOneMore(actions: seq<Action>)
    requires actions != []
    ensures var last := actions[|actions| - 1];
            Polled(actions) <==> Polled(actions[..|actions| - 1]) || (last.Poll? && last.source == Steering)
  {
    var front := actions[..|actions| - 1];
    if k :| 0 <= k < |front| && front[k].Poll? && front[k].source == Steering {
      assert actions[k].Poll? && actions[k].source == Steering;
    }
  }

  lemma {:induction false} FirstDueMeans(before: seq<Message>, s: Scan, actions: seq<Action>, k: nat)
    requires Accepted(before, s, actions) && k <= |actions| && ScanOk(s) && s.position == Before
    ensures FirstDue(At(s, actions, k)) <==> !Polled(actions[..k])
  {
    hide At, Next, Allowed, Accepted, ScanOk, FirstDue, Polled;
    AtStart(s, actions);
    BeforeIsDue(s);
    if k > 0 {
      FirstDueMeans(before, s, actions, k - 1);
      EveryRunIsOk(before, s, actions, k - 1);
      StepAt(before, s, actions, k - 1);
      FirstDueStays(before, At(s, actions, k - 1), actions[k - 1]);
      PolledOneMore(actions[..k]);
      assert actions[..k][..k - 1] == actions[..k - 1];
    }
  }

  lemma BeforeIsDue(s: Scan)
    requires s.position == Before
    ensures FirstDue(s) && !Polled([])
  {
  }

  // ---------------------------------------------------------------------------------------
  // Every poll takes what is queued

  /** Every poll takes, by the queue's mode, all that is then queued or the first of it. Only one poll is skipped: the
      first steering poll of a run on prompts that were themselves drained from the steering queue. */
  lemma EveryPollTakesWhatIsQueued(before: seq<Message>, prompts: seq<Message>, source: Source, steering: Queue, followUps: Queue,
      actions: seq<Action>, k: nat)
    requires Accepted(before, Initial(prompts, source, steering, followUps), actions) && k < |actions| && actions[k].Poll?
    ensures actions[k].source == Steering || actions[k].source == FollowUps
    ensures var q := QueueAfter(if actions[k].source == Steering then steering else followUps, actions[k].source, actions[..k]);
            if actions[k].source == Steering && source == Steering && !Polled(actions[..k]) then actions[k].drained == []
            else if q.mode == All || q.messages == [] then actions[k].drained == q.messages
            else actions[k].drained == [q.messages[0]]
  {
    hide At, Next, Allowed, Accepted, ScanOk, FirstDue, Polled, QueueAfter, Fold;
    var s := Initial(prompts, source, steering, followUps);
    InitialIsOk(prompts, source, steering, followUps);
    EveryRunIsOk(before, s, actions, k);
    StepAt(before, s, actions, k);
    FirstDueMeans(before, s, actions, k);
    QueuesFollow(s, actions[..k]);
    AtIsFold(s, actions, k);
    PollTakes(before, At(s, actions, k), actions[k]);
  }

  lemma PollTakes(before: seq<Message>, s: Scan, a: Action)
    requires Allowed(before, s, a) && ScanOk(s) && a.Poll?
    ensures a.source == Steering || a.source == FollowUps
    ensures var q := if a.source == Steering then s.steering else s.followUps;
            if a.source == Steering && s.skips && FirstDue(s) then a.drained == []
            else if q.mode == All || q.messages == [] then a.drained == q.messages
            else a.drained == [q.messages[0]]
  {
  }

  /** A run that does not end for a failed answer or a hook leaves nothing behind: when it polled the follow-ups for the
      last time, nothing was queued there, and right before that nothing was queued for steering. */
  lemma EndsWithEmptyQueues(before: seq<Message>, prompts: seq<Message>, source: Source, steering: Queue, followUps: Queue,
      actions: seq<Action>, k: nat)
    returns (i: nat, j: nat)
    requires Accepted(before, Initial(prompts, source, steering, followUps), actions) && k < |actions|
    requires actions[k].Emit? && actions[k].event.AgentEnd? && CameLast(actions, Poll(FollowUps, []), k)
    ensures i < j < k && actions[i] == Poll(Steering, []) && actions[j] == Poll(FollowUps, [])
    ensures forall l :: i < l < k && l != j ==> Aside(actions[l])
    ensures QueueAfter(steering, Steering, actions[..i]).messages == []
    ensures QueueAfter(followUps, FollowUps, actions[..j]).messages == []
  {
    hide Accepted, QueueAfter, At, Next, Allowed, ScanOk, Polled;
    j :| 0 <= j < k && actions[j] == Poll(FollowUps, []) && forall l :: j < l < k ==> Aside(actions[l]);
    FollowUpsComeLast(before, prompts, source, steering, followUps, actions, j);
    i :| 0 <= i < j && actions[i] == Poll(Steering, []) && forall l :: i < l < j ==> Aside(actions[l]);
    EveryPollTakesWhatIsQueued(before, prompts, source, steering, followUps, actions, j);
    EveryPollTakesWhatIsQueued(before, prompts, source, steering, followUps, actions, i);
    NotTheFirst(before, prompts, source, steering, followUps, actions, i, j);
  }

  /** A follow-up poll has a turn before it, and with that an earlier steering poll than the one just before it. */
  lemma NotTheFirst(before: seq<Message>, prompts: seq<Message>, source: Source, steering: Queue, followUps: Queue,
      actions: seq<Action>, i: nat, j: nat)
    requires Accepted(before, Initial(prompts, source, steering, followUps), actions) && i < j < |actions|
    requires actions[i] == Poll(Steering, []) && actions[j].Poll? && actions[j].source == FollowUps
    requires forall l :: i < l < j ==> Aside(actions[l])
    ensures Polled(actions[..i])
  {
    hide Accepted, At, Next, Allowed, ScanOk, Polled, FirstDue;
    var s := Initial(prompts, source, steering, followUps);
    InitialIsOk(prompts, source, steering, followUps);
    StepAt(before, s, actions, i);
    StepAt(before, s, actions, j);
    EveryRunIsOk(before, s, actions, i);
    EveryRunIsOk(before, s, actions, j);
    FirstDueMeans(before, s, actions, i);
    BetweenAsides(before, s, actions, i + 1, j);
    BetweenAtFollowUp(before, At(s, actions, j), actions[j]);
    BetweenBeforePoll(At(s, actions, i), actions[i]);
  }

  lemma BetweenAtFollowUp(before: seq<Message>, s: Scan, a: Action)
    requires Allowed(before, s, a) && a.Poll? && a.source == FollowUps
    ensures s.position == Between
  {
  }

  lemma BetweenBeforePoll(s: Scan, a: Action)
    requires a.Poll?
    ensures Next(s, a).position == s.position
    ensures s.position == Between ==> !FirstDue(s)
  {
  }

  lemma AsideStays(s: Scan, a: Action)
    requires Aside(a)
    ensures Next(s, a).position == s.position && Next(s, a).turn == s.turn && Next(s, a).log == s.log && Next(s, a).flow == s.flow
  {
  }

  lemma {:induction false} BetweenAsides(before: seq<Message>, s: Scan, actions: seq<Action>, j: nat, k: nat)
    requires Accepted(before, s, actions) && j <= k <= |actions| && forall l :: j <= l < k ==> Aside(actions[l])
    ensures At(s, actions, k).position == At(s, actions, j).position && At(s, actions, k).turn == At(s, actions, j).turn
    ensures At(s, actions, k).log == At(s, actions, j).log && At(s, actions, k).flow == At(s, actions, j).flow
    decreases k - j
  {
    hide *;
    if j < k {
      BetweenAsides(before, s, actions, j, k - 1);
      StepAt(before, s, actions, k - 1);
      AsideStays(At(s, actions, k - 1), actions[k - 1]);
    }
  }

  // ---------------------------------------------------------------------------------------
  // Why a turn starts

  /** The loop has looked for more messages and goes on. */
  predicate GoingOn(s: Scan) {
    s.position == Between && s.flow.polled && !s.flow.dry && (s.flow.hasMore || s.log.pending != [])
  }

  lemma GoingOnFrom(before: seq<Message>, s: Scan, a: Action)
    requires Allowed(before, s, a) && ScanOk(s) && GoingOn(Next(s, a))
    ensures (a.Poll? && (a.drained != [] || Next(s, a).flow.hasMore)) || (Aside(a) && GoingOn(s))
  {
    hide DueOk, ToolsOk, ResultsOk, RefusedOk;
  }

  lemma {:induction false} GoingOnCame(before: seq<Message>, s: Scan, actions: seq<Action>, k: nat) returns (j: nat)
    requires Accepted(before, s, actions) && k <= |actions| && ScanOk(s) && s.position == Before && GoingOn(At(s, actions, k))
    ensures j < k && actions[j].Poll? && (actions[j].drained != [] || At(s, actions, k).flow.hasMore)
    ensures forall l :: j < l < k ==> Aside(actions[l])
  {
    hide At, Next, Allowed, Accepted, ScanOk;
    AtStart(s, actions);
    EveryRunIsOk(before, s, actions, k - 1);
    StepAt(before, s, actions, k - 1);
    GoingOnFrom(before, At(s, actions, k - 1), actions[k - 1]);
    j := k - 1;
    if !actions[k - 1].Poll? {
      AsideStays(At(s, actions, k - 1), actions[k - 1]);
      j := GoingOnCame(before, s, actions, k - 1);
    }
  }

  /** A turn after the first starts right after a poll, and only if it brought messages or some tool call of the turn
      before did not ask to stop. */
  lemma WhyATurnStarts(before: seq<Message>, prompts: seq<Message>, source: Source, steering: Queue, followUps: Queue,
      actions: seq<Action>, k: nat)
    returns (j: nat)
    requires Accepted(before, Initial(prompts, source, steering, followUps), actions) && k < |actions|
    requires actions[k] == Emit(TurnStart) && !NoTurn(actions, 0, k)
    ensures j < k && actions[j].Poll? && forall l :: j < l < k ==> Aside(actions[l])
    ensures actions[j].drained != [] || !ToolsAskToStop(actions, k)
  {
    hide At, Next, Allowed, Accepted, ScanOk, NoTurn, ToolsAskToStop;
    var s := Initial(prompts, source, steering, followUps);
    InitialIsOk(prompts, source, steering, followUps);
    StepAt(before, s, actions, k);
    EveryRunIsOk(before, s, actions, k);
    PositionOfTurns(before, s, actions, k);
    StartsGoingOn(before, At(s, actions, k));
    j := GoingOnCame(before, s, actions, k);
    if At(s, actions, k).flow.hasMore {
      MoreMeansNotAsked(before, s, actions, k);
    }
  }

  lemma StartsGoingOn(before: seq<Message>, s: Scan)
    requires Allowed(before, s, Emit(TurnStart))
    ensures s.position == Started || GoingOn(s)
  {
  }

  lemma MoreMeansNotAsked(before: seq<Message>, s: Scan, actions: seq<Action>, k: nat)
    requires Accepted(before, s, actions) && k <= |actions| && s.turn == NEW_TURN
    requires At(s, actions, k).position == Between && At(s, actions, k).flow.hasMore && ScanOk(At(s, actions, k))
    requires k < |actions| && actions[k] == Emit(TurnStart)
    ensures !ToolsAskToStop(actions, k)
  {
    hide At, Next, Allowed, Accepted;
    var t := At(s, actions, k);
    AllEndedBetween(before, s, actions, k);
    var i :| 0 <= i < |t.turn.tools| && !(t.turn.tools[i].Ended? && t.turn.tools[i].terminate);
    var end := Emit(ToolEnd(i, false, t.turn.tools[i].isError));
    var j := ShownCame(before, s, actions, k, end);
    assert actions[j].event.ToolEnd? && SameTurn(actions, j, k);
  }

  /** Between two turns every tool call of the last one has ended. */
  lemma {:induction false} AllEndedBetween(before: seq<Message>, s: Scan, actions: seq<Action>, k: nat)
    requires Accepted(before, s, actions) && k <= |actions| && s.turn == NEW_TURN
    ensures At(s, actions, k).position == Between ==> AllEnded(At(s, actions, k).turn.tools)
  {
    hide At, Next, Allowed, Accepted, AllEnded;
    AtStart(s, actions);
    NoneIsEnded();
    if k > 0 {
      AllEndedBetween(before, s, actions, k - 1);
      StepAt(before, s, actions, k - 1);
      EndedBetweenStays(before, At(s, actions, k - 1), actions[k - 1]);
    }
  }

  lemma NoneIsEnded()
    ensures AllEnded(NEW_TURN.tools)
  {
  }

  lemma EndedBetweenStays(before: seq<Message>, s: Scan, a: Action)
    requires Allowed(before, s, a) && (s.position == Between ==> AllEnded(s.turn.tools))
    ensures Next(s, a).position == Between ==> AllEnded(Next(s, a).turn.tools)
  {
  }

  // ---------------------------------------------------------------------------------------
  // What stops a run

  /** The answer of the turn that ends has failed, or a hook stops the run. */
  predicate Stops(a: Action) {
    || (a.Decide? && a.stop)
    || (a.Emit? && a.event.TurnEnd? && a.event.message.Assistant?
        && (a.event.message.stopReason == Error || a.event.message.stopReason == Aborted))
  }

  /** Only the end of the run is left, or not even that. */
  predicate Stopping(s: Scan) {
    || s.position == After
    || (s.position == Between && !s.flow.polled && !s.flow.dry && (s.flow.stop || (LastFailed(s) && !s.flow.decided)))
  }

  lemma StopsMeans(before: seq<Message>, s: Scan, a: Action)
    requires Allowed(before, s, a) && ScanOk(s) && Stops(a)
    ensures Stopping(Next(s, a))
  {
    hide DueOk, ToolsOk, ResultsOk, RefusedOk, AnswerOk;
  }

  lemma StoppingStays(before: seq<Message>, s: Scan, a: Action)
    requires Allowed(before, s, a) && ScanOk(s) && Stopping(s)
    ensures Aside(a) || (a.Emit? && a.event.AgentEnd?)
    ensures Stopping(Next(s, a))
  {
    hide DueOk, ToolsOk, ResultsOk, RefusedOk, AnswerOk;
  }

  lemma {:induction false} StoppingLasts(before: seq<Message>, s: Scan, actions: seq<Action>, j: nat, k: nat)
    requires Accepted(before, s, actions) && ScanOk(s) && j <= k <= |actions| && Stopping(At(s, actions, j))
    ensures Stopping(At(s, actions, k))
    decreases k - j
  {
    hide *;
    if j < k {
      StoppingLasts(before, s, actions, j, k - 1);
      EveryRunIsOk(before, s, actions, k - 1);
      StepAt(before, s, actions, k - 1);
      StoppingStays(before, At(s, actions, k - 1), actions[k - 1]);
    }
  }

  /** After a turn whose answer has failed, and after a hook has stopped the run, the loop does nothing more than end the
      run: no poll, no hook, no turn. */
  lemma NothingButTheEnd(before: seq<Message>, prompts: seq<Message>, source: Source, steering: Queue, followUps: Queue,
      actions: seq<Action>, j: nat, k: nat)
    requires Accepted(before, Initial(prompts, source, steering, followUps), actions) && j < k < |actions| && Stops(actions[j])
    ensures Aside(actions[k]) || (actions[k].Emit? && actions[k].event.AgentEnd?)
  {
    hide At, Next, Allowed, Accepted, ScanOk, Stops, Stopping;
    var s := Initial(prompts, source, steering, followUps);
    InitialIsOk(prompts, source, steering, followUps);
    EveryRunIsOk(before, s, actions, j);
    EveryRunIsOk(before, s, actions, k);
    StepAt(before, s, actions, j);
    StepAt(before, s, actions, k);
    StopsMeans(before, At(s, actions, j), actions[j]);
    StoppingLasts(before, s, actions, j + 1, k);
    StoppingStays(before, At(s, actions, k), actions[k]);
  }

  predicate JustDecided(s: Scan) {
    s.position == Between && s.flow.decided && !s.flow.polled && !s.flow.stop
  }

  lemma DecidedFrom(before: seq<Message>, s: Scan, a: Action)
    requires Allowed(before, s, a) && ScanOk(s) && JustDecided(Next(s, a))
    ensures (a.Decide? && !a.stop) || (Aside(a) && JustDecided(s))
  {
    hide DueOk, ToolsOk, ResultsOk, RefusedOk, AnswerOk;
  }

  lemma {:induction false} DecisionCame(before: seq<Message>, s: Scan, actions: seq<Action>, k: nat) returns (j: nat)
    requires Accepted(before, s, actions) && k <= |actions| && ScanOk(s) && s.position == Before && JustDecided(At(s, actions, k))
    ensures j < k && actions[j].Decide? && !actions[j].stop && forall l :: j < l < k ==> Aside(actions[l])
  {
    hide At, Next, Allowed, Accepted, ScanOk;
    AtStart(s, actions);
    EveryRunIsOk(before, s, actions, k - 1);
    StepAt(before, s, actions, k - 1);
    DecidedFrom(before, At(s, actions, k - 1), actions[k - 1]);
    j := k - 1;
    if !actions[k - 1].Decide? {
      j := DecisionCame(before, s, actions, k - 1);
    }
  }

  /** Once a turn has ended, steering is polled right after the hooks have let the run go on. */
  lemma HooksComeFirst(before: seq<Message>, prompts: seq<Message>, source: Source, steering: Queue, followUps: Queue,
      actions: seq<Action>, k: nat)
    returns (j: nat)
    requires Accepted(before, Initial(prompts, source, steering, followUps), actions) && k < |actions|
    requires actions[k].Poll? && actions[k].source == Steering && TurnClosed(actions, k)
    ensures j < k && actions[j].Decide? && !actions[j].stop && forall l :: j < l < k ==> Aside(actions[l])
  {
    hide At, Next, Allowed, Accepted, ScanOk, TurnClosed, TurnOpen, NoTurn;
    var s := Initial(prompts, source, steering, followUps);
    InitialIsOk(prompts, source, steering, followUps);
    StepAt(before, s, actions, k);
    EveryRunIsOk(before, s, actions, k);
    PositionOfTurns(before, s, actions, k);
    NotBoth(actions, k);
    SteersAfterHooks(before, At(s, actions, k), actions[k]);
    j := DecisionCame(before, s, actions, k);
  }

  lemma SteersAfterHooks(before: seq<Message>, s: Scan, a: Action)
    requires Allowed(before, s, a) && ScanOk(s) && a.Poll? && a.source == Steering
    ensures s.position == InTurn || JustDecided(s)
  {
    hide DueOk, ToolsOk, ResultsOk, RefusedOk, AnswerOk;
  }

  lemma NotBoth(actions: seq<Action>, k: nat)
    requires k <= |actions| && TurnClosed(actions, k)
    ensures !TurnOpen(actions, k)
  {
  }
}
